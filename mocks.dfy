/** The client-side data model used in offline mode: users, projects whose
    status is one of six grant states, milestones with a boolean `verified`
    flag and proof URLs, and the seed tables the mock store starts from. */
module Mocks {
  import opened Common
  import opened Text
  import opened Seqs
  import Constants

  /** The six-valued status of a grant application on the client side. */
  datatype GrantStatus = Draft | Applied | Approved | Rejected | Flagged | Terminated

  function GrantStatusName(s: GrantStatus): string {
    match s
    case Draft => "Draft"
    case Applied => "Applied"
    case Approved => "Approved"
    case Rejected => "Rejected"
    case Flagged => "Flagged"
    case Terminated => "Terminated"
  }

  datatype MockUser = MockUser(id: string, name: string, role: Constants.UserRole)

  datatype MockMilestone = MockMilestone(
    index: int,
    description: string,
    amount: int,
    verified: bool,
    proofUrls: seq<string>,
    auditorComments: Option<string>)

  /** A client-side project; `createdAt` and `updatedAt` are abstract
      instants, larger meaning later. */
  datatype MockProject = MockProject(
    id: string,
    name: string,
    description: string,
    producerId: string,
    producerName: string,
    status: GrantStatus,
    grantTotal: Option<int>,
    milestones: seq<MockMilestone>,
    contractAddress: Option<string>,
    createdAt: int,
    updatedAt: int)

  const MockUsers: seq<MockUser> := [
    MockUser("producer-1", "GreenTech Solutions", Constants.Producer),
    MockUser("producer-2", "HydroGen Corp", Constants.Producer),
    MockUser("producer-3", "Clean Energy Innovations", Constants.Producer),
    MockUser("gov-1", "Ministry of Renewable Energy", Constants.Government),
    MockUser("auditor-1", "Environmental Audit Agency", Constants.Auditor)
  ]

  const MockProjects: seq<MockProject> := [
    MockProject("project-1", "Solar-Powered Hydrogen Plant",
      "Construction of a 50MW solar-powered hydrogen production facility using advanced electrolysis technology.",
      "producer-1", "GreenTech Solutions", Approved, Some(2500000),
      [
        MockMilestone(0, "Site preparation and foundation laying", 500000, true,
          ["https://example.com/milestone1-photo1.jpg", "https://example.com/milestone1-report.pdf"],
          Some("Foundation work completed according to specifications. Site preparation meets all environmental standards.")),
        MockMilestone(1, "Electrolysis equipment installation", 1500000, false,
          ["https://example.com/milestone2-progress.jpg"], None),
        MockMilestone(2, "System testing and commissioning", 500000, false, [], None)
      ],
      Some("0x1234567890123456789012345678901234567890"), 20240115103000, 20240210142200),
    MockProject("project-2", "Wind-Hydrogen Integration Project",
      "Integration of wind farm with hydrogen production facility to create a renewable energy storage system.",
      "producer-2", "HydroGen Corp", Applied, None,
      [
        MockMilestone(0, "Environmental impact assessment", 0, false, [], None),
        MockMilestone(1, "Wind turbine installation", 0, false, [], None),
        MockMilestone(2, "Hydrogen production system setup", 0, false, [], None)
      ],
      None, 20240201091500, 20240201091500),
    MockProject("project-3", "Green Hydrogen Research Lab",
      "Establishment of a research laboratory for developing next-generation hydrogen production technologies.",
      "producer-3", "Clean Energy Innovations", Flagged, Some(800000),
      [
        MockMilestone(0, "Lab facility construction", 400000, true,
          ["https://example.com/lab-construction.jpg", "https://example.com/construction-permits.pdf"],
          Some("Construction completed but some equipment specifications need verification.")),
        MockMilestone(1, "Research equipment procurement", 300000, false,
          ["https://example.com/equipment-invoices.pdf"], None),
        MockMilestone(2, "Initial research phase completion", 100000, false, [], None)
      ],
      Some("0x2345678901234567890123456789012345678901"), 20240120114500, 20240215163000),
    MockProject("project-4", "Industrial Hydrogen Hub",
      "Development of a large-scale hydrogen production and distribution hub for industrial applications.",
      "producer-1", "GreenTech Solutions", Draft, None,
      [
        MockMilestone(0, "Feasibility study and site selection", 0, false, [], None),
        MockMilestone(1, "Infrastructure development", 0, false, [], None),
        MockMilestone(2, "Hub commissioning and testing", 0, false, [], None)
      ],
      None, 20240220080000, 20240220080000),
    MockProject("project-5", "Coastal Hydrogen Plant",
      "Offshore wind-powered hydrogen production facility with seawater electrolysis.",
      "producer-2", "HydroGen Corp", Rejected, None,
      [
        MockMilestone(0, "Marine environmental study", 0, false, ["https://example.com/marine-study.pdf"],
          Some("Environmental study incomplete - insufficient data on marine ecosystem impact."))
      ],
      None, 20240110142000, 20240125101500),
    MockProject("project-6", "Hydrogen Transport Network",
      "Development of hydrogen pipeline infrastructure for regional distribution.",
      "producer-3", "Clean Energy Innovations", Terminated, Some(1200000),
      [
        MockMilestone(0, "Pipeline route planning", 300000, true, ["https://example.com/route-maps.pdf"],
          Some("Route planning approved with modifications.")),
        MockMilestone(1, "Construction permits and approvals", 400000, false, [],
          Some("Project terminated due to regulatory changes."))
      ],
      Some("0x3456789012345678901234567890123456789012"), 20240105123000, 20240205154500)
  ]

  // ---------------------------------------------------------------------
  // Facts about the seed tables
  // ---------------------------------------------------------------------

  /** The seed project ids are pairwise distinct. */
  lemma SeedIdsDistinct()
    ensures forall i, j :: 0 <= i < j < |MockProjects| ==> MockProjects[i].id != MockProjects[j].id
  {
  }

  /** The mock user ids are pairwise distinct. */
  lemma MockUserIdsDistinct()
    ensures forall i, j :: 0 <= i < j < |MockUsers| ==> MockUsers[i].id != MockUsers[j].id
  {
  }

  // ---------------------------------------------------------------------
  // Identifier helpers
  // ---------------------------------------------------------------------

  /** JavaScript's `s.substr(start, length)` for non-negative arguments. */
  function Substr(s: string, start: nat, length: nat): (r: string)
    ensures |r| <= length
    ensures start <= |s| ==> r == s[start..if start + length <= |s| then start + length else |s|]
    ensures start >= |s| ==> r == []
  {
    if start >= |s| then []
    else if start + length <= |s| then s[start..start + length]
    else s[start..]
  }

  /** `'mock-' + Math.random().toString(36).substr(2, 9)`, with the base-36
      rendering of the random number as the parameter: the id starts with
      `mock-` and is followed by at most nine characters. */
  function GenerateMockId(base36: string): (r: string)
    ensures 5 <= |r| <= 14 && r[..5] == "mock-"
  {
    "mock-" + Substr(base36, 2, 9)
  }
}
