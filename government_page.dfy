/** The government dashboard page: subsidy applications with their status
    counters and disbursed sum, the actions offered per status, replacement
    of one entry by id after an action, the producer search and the wallet
    connection form. Backend replies are parameters: `None` when the call
    threw. */
module GovernmentPage {
  import opened Common
  import opened Text
  import opened Seqs

  datatype Subsidy = Subsidy(id: string, description: string, amount: int, status: string)

  datatype Producer = Producer(id: string, name: string, email: string, walletVerified: bool)

  // ---------------------------------------------------------------------
  // Counters
  // ---------------------------------------------------------------------

  function SubsidyStatusIs(status: string): Subsidy -> bool {
    (s: Subsidy) => s.status == status
  }

  function Amount(s: Subsidy): int {
    s.amount
  }

  datatype Stats = Stats(total: nat, pending: nat, approved: nat, rejected: nat, terminated: nat, disbursed: int)

  /** The counters computed at load: exact status matches, and the amounts
      of the APPROVED entries summed. */
  function SubsidyStats(subs: seq<Subsidy>): (r: Stats)
    ensures r.total == |subs|
    ensures r.pending == |Filter(subs, SubsidyStatusIs("PENDING"))|
    ensures r.approved == |Filter(subs, SubsidyStatusIs("APPROVED"))|
    ensures r.rejected == |Filter(subs, SubsidyStatusIs("REJECTED"))|
    ensures r.terminated == |Filter(subs, SubsidyStatusIs("TERMINATED"))|
    ensures r.pending + r.approved + r.rejected + r.terminated <= r.total
    ensures r.disbursed == SumOf(Filter(subs, SubsidyStatusIs("APPROVED")), Amount)
  {
    CountIsFilterLength(subs, SubsidyStatusIs("PENDING"));
    CountIsFilterLength(subs, SubsidyStatusIs("APPROVED"));
    CountIsFilterLength(subs, SubsidyStatusIs("REJECTED"));
    CountIsFilterLength(subs, SubsidyStatusIs("TERMINATED"));
    DistinctCountsBounded(subs, "PENDING", "APPROVED", "REJECTED", "TERMINATED");
    Stats(|subs|, Count(subs, SubsidyStatusIs("PENDING")), Count(subs, SubsidyStatusIs("APPROVED")),
          Count(subs, SubsidyStatusIs("REJECTED")), Count(subs, SubsidyStatusIs("TERMINATED")),
          SumOf(Filter(subs, SubsidyStatusIs("APPROVED")), Amount))
  }

  /** Four distinct statuses select disjoint sets of entries. */
  lemma {:induction false} DistinctCountsBounded(subs: seq<Subsidy>, a: string, b: string, c: string, d: string)
    requires a != b && a != c && a != d && b != c && b != d && c != d
    ensures Count(subs, SubsidyStatusIs(a)) + Count(subs, SubsidyStatusIs(b))
            + Count(subs, SubsidyStatusIs(c)) + Count(subs, SubsidyStatusIs(d)) <= |subs|
  {
    if subs != [] {
      DistinctCountsBounded(subs[1..], a, b, c, d);
    }
  }

  /** With no negative amounts, the disbursed sum lies between 0 and the
      sum of all amounts. */
  lemma {:induction false} DisbursedWithinTotal(subs: seq<Subsidy>)
    requires forall i :: 0 <= i < |subs| ==> subs[i].amount >= 0
    ensures 0 <= SubsidyStats(subs).disbursed <= SumOf(subs, Amount)
  {
    if subs != [] {
      DisbursedWithinTotal(subs[1..]);
      var rest := Filter(subs[1..], SubsidyStatusIs("APPROVED"));
      if subs[0].status == "APPROVED" {
        assert Filter(subs, SubsidyStatusIs("APPROVED")) == [subs[0]] + rest;
        assert ([subs[0]] + rest)[1..] == rest;
      } else {
        assert Filter(subs, SubsidyStatusIs("APPROVED")) == rest;
      }
    }
  }

  // ---------------------------------------------------------------------
  // Actions and replacement by id
  // ---------------------------------------------------------------------

  datatype SubsidyAction = ApproveSubsidy | RejectSubsidy | TerminateSubsidy

  function ActionName(a: SubsidyAction): string {
    match a
    case ApproveSubsidy => "APPROVE"
    case RejectSubsidy => "REJECT"
    case TerminateSubsidy => "TERMINATE"
  }

  /** The buttons of a subsidy row. */
  function OfferedActions(status: string): (r: seq<SubsidyAction>)
    ensures ApproveSubsidy in r <==> status == "PENDING"
    ensures RejectSubsidy in r <==> status == "PENDING"
    ensures TerminateSubsidy in r <==> status == "APPROVED"
    ensures status != "PENDING" && status != "APPROVED" ==> r == []
  {
    if status == "PENDING" then [ApproveSubsidy, RejectSubsidy]
    else if status == "APPROVED" then [TerminateSubsidy]
    else []
  }

  function SubsidyIdIs(id: string): Subsidy -> bool {
    (s: Subsidy) => s.id == id
  }

  function ProducerIdIs(id: string): Producer -> bool {
    (p: Producer) => p.id == id
  }

  /** `subs.map(s => s._id === id ? updated : s)`. */
  function ReplaceSubsidy(subs: seq<Subsidy>, id: string, updated: Subsidy): (r: seq<Subsidy>)
    ensures |r| == |subs|
    ensures forall i :: 0 <= i < |subs| ==> r[i] == if subs[i].id == id then updated else subs[i]
  {
    MapWhere(subs, SubsidyIdIs(id), (s: Subsidy) => updated)
  }

  /** `producers.map(p => p._id === id ? updated : p)`. */
  function ReplaceProducer(ps: seq<Producer>, id: string, updated: Producer): (r: seq<Producer>)
    ensures |r| == |ps|
    ensures forall i :: 0 <= i < |ps| ==> r[i] == if ps[i].id == id then updated else ps[i]
  {
    MapWhere(ps, ProducerIdIs(id), (p: Producer) => updated)
  }

  /** A reply that keeps the id makes a second identical replacement change
      nothing. */
  lemma ReplaceSubsidyIdempotent(subs: seq<Subsidy>, id: string, updated: Subsidy)
    requires updated.id == id
    ensures ReplaceSubsidy(ReplaceSubsidy(subs, id, updated), id, updated) == ReplaceSubsidy(subs, id, updated)
  {
    var once := ReplaceSubsidy(subs, id, updated);
    assert forall i :: 0 <= i < |subs| ==> ReplaceSubsidy(once, id, updated)[i] == once[i];
  }

  /** The verify button of a producer row. */
  predicate WalletVerifyOffered(p: Producer) {
    !p.walletVerified
  }

  /** The producer search: name or email contains the term, ignoring case. */
  predicate ProducerMatches(p: Producer, term: string) {
    ContainsIgnoringCase(p.name, term) || ContainsIgnoringCase(p.email, term)
  }

  function ProducerMatchesTerm(term: string): Producer -> bool {
    (p: Producer) => ProducerMatches(p, term)
  }

  function FilterProducers(ps: seq<Producer>, term: string): (r: seq<Producer>)
    ensures forall p :: p in r <==> p in ps && ProducerMatches(p, term)
    ensures |r| <= |ps|
  {
    Filter(ps, ProducerMatchesTerm(term))
  }

  /** An empty search keeps every producer. */
  lemma EmptySearchKeepsAll(ps: seq<Producer>)
    ensures FilterProducers(ps, "") == ps
  {
    forall p | p in ps ensures ProducerMatchesTerm("")(p) {
      ContainsIgnoringCaseEmpty(p.name);
    }
    FilterAll(ps, ProducerMatchesTerm(""));
  }

  // ---------------------------------------------------------------------
  // The page's state
  // ---------------------------------------------------------------------

  class Page {
    var subsidies: seq<Subsidy>
    var producers: seq<Producer>
    var stats: Option<Stats>
    var loading: bool
    var search: string
    var walletAddress: string
    var isConnectingWallet: bool

    constructor ()
      ensures subsidies == [] && producers == [] && stats.None? && loading
      ensures search == "" && walletAddress == "" && !isConnectingWallet
    {
      subsidies := [];
      producers := [];
      stats := None;
      loading := true;
      search := "";
      walletAddress := "";
      isConnectingWallet := false;
    }

    /** `loadData`: the counters are computed once, here. The three fetches
        are awaited together, so a rejected one, the reports fetch included,
        leaves the page loading. The reports themselves are only displayed;
        `reportsFetched` says whether their fetch succeeded. */
    method LoadData(subs: Option<seq<Subsidy>>, prods: Option<seq<Producer>>, reportsFetched: bool)
      modifies this`subsidies, this`producers, this`stats, this`loading
      ensures subs.Some? && prods.Some? && reportsFetched ==> subsidies == subs.value && producers == prods.value
      ensures subs.Some? && prods.Some? && reportsFetched ==> stats == Some(SubsidyStats(subs.value)) && !loading
      ensures !(subs.Some? && prods.Some? && reportsFetched) ==> subsidies == old(subsidies) && producers == old(producers)
      ensures !(subs.Some? && prods.Some? && reportsFetched) ==> stats == old(stats) && loading
    {
      loading := true;
      if subs.Some? && prods.Some? && reportsFetched {
        subsidies := subs.value;
        producers := prods.value;
        stats := Some(SubsidyStats(subs.value));
        loading := false;
      }
    }

    /** `handleSubsidyAction`: whatever the call returns replaces the entry;
        the counters are not recomputed. */
    method SubsidyActionTaken(id: string, action: SubsidyAction, reply: Option<Subsidy>) returns (sent: string)
      modifies this`subsidies
      ensures sent == ActionName(action)
      ensures subsidies == if reply.Some? then ReplaceSubsidy(old(subsidies), id, reply.value) else old(subsidies)
    {
      sent := ActionName(action);
      if reply.Some? {
        subsidies := ReplaceSubsidy(subsidies, id, reply.value);
      }
    }

    /** `handleWalletVerify`. */
    method WalletVerify(id: string, reply: Option<Producer>)
      modifies this`producers
      ensures producers == if reply.Some? then ReplaceProducer(old(producers), id, reply.value) else old(producers)
    {
      if reply.Some? {
        producers := ReplaceProducer(producers, id, reply.value);
      }
    }

    /** `handleConnectWallet`: a blank address sends nothing and changes
        nothing; a successful call clears the field. */
    method ConnectWallet(succeeded: bool) returns (sent: Option<string>)
      modifies this`walletAddress, this`isConnectingWallet
      ensures IsBlank(old(walletAddress)) ==> sent.None? && walletAddress == old(walletAddress)
      ensures IsBlank(old(walletAddress)) ==> isConnectingWallet == old(isConnectingWallet)
      ensures !IsBlank(old(walletAddress)) ==> sent == Some(old(walletAddress)) && !isConnectingWallet
      ensures !IsBlank(old(walletAddress)) ==> walletAddress == (if succeeded then "" else old(walletAddress))
    {
      if Trim(walletAddress) == "" {
        return None;
      }
      isConnectingWallet := true;
      sent := Some(walletAddress);
      if succeeded {
        walletAddress := "";
      }
      isConnectingWallet := false;
    }
  }
}
