# Green Hydrogen Subsidy Platform — a verified model of its core

The platform lets hydrogen **producers** file subsidy projects split into
milestones. **Government** users approve, reject or flag those projects and
lock funds on a chain. **Auditors** verify the proofs uploaded for each
milestone.

This Dafny project models the logic of the platform:

- the server routes: project table, milestone table, sign-in, registration,
  login and wallet transfer;
- the client data layer with its offline mock store;
- the wallet/blockchain helper;
- the toast hook;
- the decision logic of the dashboard components: which actions are offered
  to whom, which checks run before an event is forwarded, how replies are
  merged into local state, and the counters.

Form of the model:

- Pure helpers are `function`s, each with a contract that states what it means.
- A handler or component that keeps state is a `class` whose methods are
  proved against those functions.
- The reply of a backend, a chain or a random draw is a parameter: `None` or
  `Err` stands for a call that threw.
- Timestamps are abstract integers, larger meaning later.

Modules:

- `Common`, `Text`, `Seqs`: option/result types, string helpers (trim,
  lower-case, decimal rendering) and sequence helpers (filter, count, sums,
  first index).
- `Constants`: roles, milestone statuses and project statuses, with their
  wire strings, and the route records.
- `ProjectsRoute`, `MilestonesRoute`: the `/api/projects` and
  `/api/milestones` handlers over their module-level tables.
- `Auth`, `UsersCreate`, `UsersLogin`, `WalletTransfer`: the user and wallet
  routes.
- `Mocks`, `Api`: the seed data and the client data layer that falls back to
  it.
- `Blockchain`: the wallet session, the chain names and explorer URLs, and
  the transaction helpers with their simulated-wallet shortcut.
- `Toast`, `WalletConnectButton`, `MilestoneCard`, `ProjectCard`,
  `ProjectFormModal`, `RoleBasedDashboard`: the shared components.
- `GovernmentPanel`, `AuditorPanel`, `ProducerPanel`, `GovernmentPage`,
  `ProducerPage`, `AuditorPage`: the dashboards.

## Model

| member | source | states |
|---|---|---|
| Constants.ParseRole | src/lib/constants.ts:3-7 | exactly the three role strings parse, each back to the role whose name it is |
| Constants.RoleNameRoundTrip | src/lib/constants.ts:3-7 | every role survives a trip through its name |
| Constants.ParseMilestoneStatus | src/lib/constants.ts:11-15 | exactly `pending`, `verified`, `rejected` parse, each back to its status |
| Constants.MilestoneStatusNameRoundTrip | src/lib/constants.ts:11-15 | every milestone status survives a trip through its wire string |
| Constants.ParseProjectStatus | src/lib/constants.ts:19-25 | exactly the five project status strings parse, each back to its status |
| Constants.ProjectStatusNameRoundTrip | src/lib/constants.ts:19-25 | every project status survives a trip through its wire string |
| ProjectsRoute.List | src/app/api/projects/route.ts:85-112 | a project is listed iff it is in the table and passes both truthy queries (case-insensitive producer substring, exact status); `total` is the count and never exceeds the table |
| ProjectsRoute.ListKeepsOrder | src/app/api/projects/route.ts:98-105 | the two filters in a row equal one filter by the combined query, so table order is kept |
| ProjectsRoute.CheckMilestones | src/app/api/projects/route.ts:157-166 | the loop accepts iff every milestone has a truthy title, description, target date and amount |
| ProjectsRoute.MilestoneIdsDistinct | src/app/api/projects/route.ts:178 | two milestones of one request with equal ids have equal indexes |
| ProjectsRoute.Create | src/app/api/projects/route.ts:128-191 | the three 400 replies in handler order; success iff all checks pass, giving a submitted project with trimmed text, a nonzero subsidy and one pending milestone per request entry with its trimmed fields and no verifier, verification time or rejection reason (trimming is stated by the three Text rows below) |
| Text.TrimStartRemovesOnlyBlanks | src/app/api/projects/route.ts:172-180 | `trim` drops only blanks at the front: every character before the kept suffix is blank |
| Text.TrimEndRemovesOnlyBlanks | src/app/api/projects/route.ts:172-180 | `trim` drops only blanks at the back: every character after the kept prefix is blank |
| Text.TrimRemovesOnlyBlanks | src/app/api/projects/route.ts:172-180 | the trimmed text is the slice of the input at some offset, with only blanks before and after it |
| ProjectsRoute.ZeroSubsidyRefused | src/app/api/projects/route.ts:135-142 | a zero subsidy is falsy and is refused as a missing field |
| ProjectsRoute.Merge | src/app/api/projects/route.ts:252-256 | every field of the project record that the body carries overrides, the rest are kept, the timestamp is refreshed |
| ProjectsRoute.MergeIdempotent | src/app/api/projects/route.ts:252-256 | merging a patch twice equals merging it once at the later time |
| ProjectsRoute.MergeEmptyPatch | src/app/api/projects/route.ts:252-256 | an empty patch only refreshes the timestamp |
| ProjectsRoute.Update | src/app/api/projects/route.ts:223-256 | 400 without an id, 404 iff no project has it; otherwise only the first project with the id is replaced by its merge, and the length is kept |
| ProjectsRoute.UpdateTwice | src/app/api/projects/route.ts:223-256 | a repeated PUT that keeps the id succeeds again and ends as one PUT at the later time |
| ProjectsRoute.Remove | src/app/api/projects/route.ts:282-311 | 400 without an id, 404 iff no project has it; otherwise exactly the first project with the id is cut out and returned |
| ProjectsRoute.RemoveDropsOne | src/app/api/projects/route.ts:298-311 | a successful DELETE lowers the number of projects carrying the id by exactly one |
| ProjectsRoute.ProjectTable.constructor | src/app/api/projects/route.ts:6-83 | the table starts with the two demonstration projects |
| ProjectsRoute.ProjectTable.Get | src/app/api/projects/route.ts:85-112 | the reply is the listing of the current table |
| ProjectsRoute.ProjectTable.Post | src/app/api/projects/route.ts:128-191 | the reply is the creation outcome; only a success appends the project |
| ProjectsRoute.ProjectTable.Put | src/app/api/projects/route.ts:223-256 | the table becomes the update's table on success and is unchanged on an error |
| ProjectsRoute.ProjectTable.Delete | src/app/api/projects/route.ts:282-311 | the table becomes the removal's table on success and is unchanged on an error |
| MilestonesRoute.Restamp | src/app/api/milestones/route.ts:100-107 | the status is set; the verifier fields change only to truthy body values; a reason is attached only when supplied; every other field is kept |
| MilestonesRoute.DerivedStatus | src/app/api/milestones/route.ts:151-162 | all verified gives completed; some but not all verified gives in progress; none verified keeps the status |
| MilestonesRoute.VerifyingLastCompletes | src/app/api/milestones/route.ts:151-162 | verifying the only unverified milestone completes the project |
| MilestonesRoute.RejectingReopens | src/app/api/milestones/route.ts:151-162 | rejecting one milestone while another is verified leaves the project in progress, even a completed one |
| MilestonesRoute.SetStatus | src/app/api/milestones/route.ts:36-162 | the two 400 and the two 404 replies in handler order; success iff every field is truthy, the status parses, a project has the id and the first such project has the milestone; on success only the first matching milestone of the first matching project is restamped and the project's status derived |
| MilestonesRoute.Annotate | src/app/api/milestones/route.ts:209-216 | one entry per milestone, in order, carrying its project's id, name and producer |
| MilestonesRoute.Find | src/app/api/milestones/route.ts:198 | absent iff no project has the id; otherwise the first project with it |
| MilestonesRoute.List | src/app/api/milestones/route.ts:185-227 | the listing is the base entries (one project's or all milestones, in table order) filtered by the combined truthy status and auditor queries, so order and multiplicity are kept; an entry is listed iff it is in the base and passes both |
| MilestonesRoute.ListAllHoldsEveryMilestone | src/app/api/milestones/route.ts:209-216 | with no project id, every milestone of every project appears, annotated with its project |
| MilestonesRoute.ListAllLength | src/app/api/milestones/route.ts:209-216 | with no id and no filters, the listing has one entry per milestone in the table |
| MilestonesRoute.AnnotatedLengths | src/app/api/milestones/route.ts:209-216 | annotating keeps the total number of milestones |
| MilestonesRoute.Add | src/app/api/milestones/route.ts:249-292 | 400 for a missing field, 404 iff the project is unknown; otherwise a pending milestone is appended to the first matching project and its subsidy total grows by exactly the amount |
| MilestonesRoute.AddKeepsSubsidyBalanced | src/app/api/milestones/route.ts:290-291 | a table whose subsidy totals equal their milestone sums stays balanced through a POST |
| MilestonesRoute.EmptyTablePutNotFound | src/app/api/milestones/route.ts:11 | on the empty table a well-formed PUT always ends in 404 |
| MilestonesRoute.EmptyTablePostNotFound | src/app/api/milestones/route.ts:11 | on the empty table a complete POST always ends in 404 |
| MilestonesRoute.TableStaysEmpty | src/app/api/milestones/route.ts:11 | no sequence of requests ever puts a project into the empty table |
| MilestonesRoute.MilestoneTable.constructor | src/app/api/milestones/route.ts:11 | the table starts empty |
| MilestonesRoute.MilestoneTable.Put | src/app/api/milestones/route.ts:36-162 | the reply is the status update's outcome; only a success changes the table |
| MilestonesRoute.MilestoneTable.Get | src/app/api/milestones/route.ts:185-227 | the reply is the listing of the current table |
| MilestonesRoute.MilestoneTable.Post | src/app/api/milestones/route.ts:249-292 | the reply is the addition's outcome; only a success changes the table |
| Auth.FindOrCreate | src/app/api/auth/route.ts:9-12 | the reply has the name and role; a known pair returns the first stored user with that name and role and leaves the store unchanged; an unknown pair appends and returns a new user with the sent wallet; afterwards the pair is known |
| Auth.SecondSignInCreatesNothing | src/app/api/auth/route.ts:9-12 | a second sign-in with the same name and role returns the same user and creates nothing, whatever wallet it sends |
| Auth.UserDirectory.constructor | src/app/api/auth/route.ts:9 | the directory holds the given users |
| Auth.UserDirectory.Authenticate | src/app/api/auth/route.ts:5-15 | the scan's store and reply are exactly the find-or-create result |
| UsersCreate.WalletNumber | src/app/api/users/create/route.ts:30-31 | the number is `WALLET-` followed by the decimal digits of 100000 plus the draw |
| UsersCreate.Decide | src/app/api/users/create/route.ts:11-25 | 400 for a missing field; with all fields, refused iff the email is taken; otherwise the user with the given fields |
| UsersCreate.Accounts.constructor | src/app/api/users/create/route.ts:16-32 | both collections start empty, with unique emails and owned wallets |
| UsersCreate.Accounts.Create | src/app/api/users/create/route.ts:8-38 | a refusal changes nothing (400); a success appends the user (201) and one wallet owned by it exactly for `producer` and `government`; emails stay unique |
| UsersLogin.Login | src/app/api/users/login/route.ts:10-25 | 400 iff a field is missing; 404 iff no user has the email and lower-cased role; otherwise the first match decides between 401 and 200 by its password; only 200 carries the user |
| UsersLogin.RegisteredUserLogsIn | src/app/api/users/login/route.ts:15-25 | a user just registered with a lower-case role logs in with its password under any capitalisation of that role |
| UsersLogin.CapitalisedRoleNeverFound | src/app/api/users/login/route.ts:15 | a user stored with an upper-case letter in its role never matches a login |
| WalletTransfer.TransferStepAsWritten | src/app/api/wallet/transfer.ts:9-20 | an unknown or short source gives 400 with nothing saved; a missing destination throws with nothing saved; a success keeps the set of wallets |
| WalletTransfer.SelfTransferMints | src/app/api/wallet/transfer.ts:16-20 | as written, a wallet paying itself 30 out of 100 ends at 130 |
| WalletTransfer.TransferStep | src/app/api/wallet/transfer.ts:9-20 | the same refusals and exception; a success keeps the set of wallets |
| WalletTransfer.TransferConserves | src/app/api/wallet/transfer.ts:12-20 | a funded transfer succeeds, keeps the two wallets' total, moves exactly the amount between distinct wallets, changes nothing on a self-transfer and touches no other wallet |
| WalletTransfer.AsWrittenAgreesForDistinctWallets | src/app/api/wallet/transfer.ts:9-20 | the written and the corrected handler agree whenever the wallets differ |
| WalletTransfer.Wallets.constructor | src/app/api/wallet/transfer.ts:9-10 | the store holds the given balances |
| WalletTransfer.Wallets.TransferAsWritten | src/app/api/wallet/transfer.ts:9-20 | the stepwise loads, updates and saves end in the as-written step |
| WalletTransfer.Wallets.Transfer | src/app/api/wallet/transfer.ts:9-20 | the corrected handler ends in the intended step |
| Mocks.SeedIdsDistinct | src/lib/mocks.ts:62-281 | the seed project ids are pairwise distinct |
| Mocks.MockUserIdsDistinct | src/lib/mocks.ts:33-59 | the mock user ids are pairwise distinct |
| Mocks.Substr | src/lib/mocks.ts:328 | JavaScript `substr` for non-negative arguments: at most `length` characters starting at `start`, empty past the end |
| Mocks.GenerateMockId | src/lib/mocks.ts:327-329 | the id starts with `mock-` and has at most nine more characters |
| Api.InsertByRecency | src/lib/api.ts:53 | inserting into a recency-sorted list keeps it sorted and adds exactly the project |
| Api.SortByRecency | src/lib/api.ts:53 | the result is a permutation of the input, most recently updated first |
| Api.InsertKeepsTies | src/lib/api.ts:53 | an inserted project comes first among those sharing its timestamp |
| Api.SortIsStable | src/lib/api.ts:53 | the sort is stable: for every timestamp, the projects carrying it appear in their input order |
| Api.MockList | src/lib/api.ts:45-54 | sorted by recency; a permutation of the store, or of its Applied and Draft projects under `government-open` |
| Api.MockIdInjective | src/lib/api.ts:78 | distinct counter values give distinct mock ids |
| Api.ProducerNameFor | src/lib/api.ts:80 | the name of the mock user with that id, or `Unknown Producer` when no user has it or its name is empty; the ids being distinct, the user found is the only one with the id |
| Api.NewMockProject | src/lib/api.ts:74-97 | a Draft with the next id, no grant or contract, the resolved producer name and the drafted milestones indexed by position and unverified |
| Api.SeedIdsFresh | src/lib/api.ts:40-41 | the seed store's ids are distinct and none equals a mock id the counter will issue |
| Api.PrependKeepsIdsFresh | src/lib/api.ts:78-96 | prepending with the counter's id and advancing the counter keeps ids distinct and fresh |
| Api.MergeMock | src/lib/api.ts:126-130 | the patch's fields override, the timestamp is refreshed, nothing else changes |
| Api.MockUpdate | src/lib/api.ts:120-133 | throws `Project not found` iff no project has the id; otherwise only the first such project is merged |
| Api.UpdateKeepsIdsFresh | src/lib/api.ts:120-133 | an update keeps the ids distinct and fresh |
| Api.MockUpload | src/lib/api.ts:151-167 | the URL is appended to the proofs of an existing milestone of the first matching project, whose timestamp is refreshed; otherwise the store is unchanged |
| Api.MockVerify | src/lib/api.ts:188-205 | throws iff the project is unknown; an existing milestone becomes verified exactly for `approve` and gets the comments; a missing index changes nothing |
| Api.ApiClient.constructor | src/lib/api.ts:5-7 | live mode, the seed store, the counter one past the seed |
| Api.ApiClient.InitializeApiMode | src/lib/api.ts:24-27 | mock mode is on iff the backend is offline or mocking was chosen |
| Api.ApiClient.IsMockMode | src/lib/api.ts:30-31 | reports the mode |
| Api.ApiClient.ToggleMockMode | src/lib/api.ts:34-37 | flips the choice and makes the mode follow it |
| Api.ApiClient.FetchProjects | src/lib/api.ts:44-65 | a failed call switches to mock mode for good; in mock mode the reply is the mock listing, otherwise the backend's body |
| Api.ApiClient.CreateProject | src/lib/api.ts:68-112 | in mock mode the new project is prepended and the counter advanced, keeping ids fresh; otherwise the store is untouched |
| Api.ApiClient.UpdateProject | src/lib/api.ts:115-148 | in mock mode the store becomes the mock update, or is unchanged when it throws |
| Api.ApiClient.UploadMilestoneProof | src/lib/api.ts:150-185 | in mock mode the file's URL is returned whether or not the milestone exists, and the store becomes the mock upload |
| Api.ApiClient.VerifyMilestone | src/lib/api.ts:187-220 | in mock mode the store becomes the mock verification, or is unchanged when it throws |
| Api.ApiClient.VerifyTransactionOnChain | src/lib/api.ts:222-246 | mock mode returns a confirmed receipt for the hash; otherwise a failure is rethrown and does not switch modes |
| Blockchain.ChainName | src/lib/blockchain.ts:109-118 | the five known ids get their names; any other id gets `Chain ` and its decimal |
| Blockchain.IntToStringInjective | src/lib/blockchain.ts:117 | distinct integers render to distinct decimals |
| Blockchain.ChainNameInjective | src/lib/blockchain.ts:109-118 | distinct chain ids get distinct names |
| Blockchain.EffectiveChain | src/lib/blockchain.ts:289 | the first truthy of the argument, the wallet's chain and 80001; never 0 |
| Blockchain.ExplorerUrl | src/lib/blockchain.ts:288-301 | the chain's explorer base, or the Mumbai one, followed by the hash |
| Blockchain.ExplorerUrlShape | src/lib/blockchain.ts:288-301 | the URL ends with the hash; a base exists iff the chain is known; an unknown chain gets the Mumbai URL |
| Blockchain.TxOutcome | src/lib/blockchain.ts:133-262 | no signer fails with `Wallet not connected`; a simulated wallet returns `0x` and the hash; otherwise the chain's hash, or its error replaced by the operation's message (rethrown by `signAndSend`) |
| Blockchain.WaitOutcome | src/lib/blockchain.ts:266-285 | no provider fails; a simulated wallet gets a receipt with status 1; otherwise the chain's reply |
| Blockchain.SimulatedWallet | src/lib/blockchain.ts:64-74 | a simulated wallet on chain 80001 with balance `10.0` and a `0x` address |
| Blockchain.Session.constructor | src/lib/blockchain.ts:20-22 | no provider, signer or wallet |
| Blockchain.Session.ConnectSimulated | src/lib/blockchain.ts:64-74 | only the current wallet changes, to the simulated wallet |
| Blockchain.Session.Disconnect | src/lib/blockchain.ts:77-85 | provider, signer and wallet are all cleared |
| Blockchain.Session.Send | src/lib/blockchain.ts:133-262 | the result is the transaction outcome for the session's signer and wallet |
| Blockchain.Session.WaitForTransaction | src/lib/blockchain.ts:266-285 | the result is the wait outcome for the session's provider and wallet |
| Blockchain.SimulatedSessionCannotTransact | src/lib/blockchain.ts:64-74 | a session with only a simulated wallet has no signer or provider, so it can neither send nor wait |
| Blockchain.DisconnectedSessionCannotTransact | src/lib/blockchain.ts:77-85 | after a disconnect there is no wallet and every send fails with `Wallet not connected` |
| Toast.Duration | src/components/toast.tsx:30 | an absent duration is 5000; a given one is kept |
| Toast.AutoCloseAfter | src/components/toast.tsx:32-40 | a close timer exists iff the duration is positive, and then fires after it |
| Toast.Rendered | src/components/toast.tsx:109 | nothing is rendered iff the list is empty |
| Toast.ToastId | src/components/toast.tsx:125 | a prefix of the random digits, at most nine long, exactly nine when there are enough |
| Toast.Added | src/components/toast.tsx:124-127 | one toast with the request's fields and the id is appended; the others are unchanged |
| Toast.Removed | src/components/toast.tsx:129-131 | a toast stays iff it was there and has another id; the list never grows |
| Toast.RemovedIdempotent | src/components/toast.tsx:129-131 | removing an id twice equals removing it once |
| Toast.RemoveUndoesAdd | src/components/toast.tsx:124-131 | removing a freshly added toast whose id is new restores the list |
| Toast.RemovedKeepsOrder | src/components/toast.tsx:129-131 | removal distributes over concatenation, so order is kept |
| Toast.ToastList.constructor | src/components/toast.tsx:122 | the list starts empty |
| Toast.ToastList.AddToast | src/components/toast.tsx:124-127 | the list becomes the added list |
| Toast.ToastList.RemoveToast | src/components/toast.tsx:129-131 | the list becomes the removed list |
| Toast.ToastList.ClearAll | src/components/toast.tsx:133-135 | the list becomes empty |
| Toast.ToastList.Notify | src/components/toast.tsx:138-152 | a toast of the chosen type is appended |
| WalletConnectButton.SliceFront | src/components/WalletConnectButton.tsx:132 | JavaScript `slice(0, n)`: the first n characters, or the whole shorter string |
| WalletConnectButton.SliceBack | src/components/WalletConnectButton.tsx:132 | JavaScript `slice(-n)`: the last n characters, or the whole shorter string; `slice(-0)` is the whole string |
| WalletConnectButton.TruncateAddress | src/components/WalletConnectButton.tsx:131-133 | the front slice, three dots and the back slice |
| WalletConnectButton.TruncateAddressShape | src/components/WalletConnectButton.tsx:131-133 | an address of ten or more characters shows its first six and last four around the dots; a shorter-than-four one appears whole on both sides; never more than 13 characters |
| WalletConnectButton.ShownForAllButAuditor | src/components/WalletConnectButton.tsx:35-37 | the button is hidden exactly for the auditor role |
| WalletConnectButton.ConnectNotice | src/components/WalletConnectButton.tsx:55-74 | success names the truncated address; failure shows the error or a default; destructive iff failed |
| WalletConnectButton.DevWallet | src/components/WalletConnectButton.tsx:106-111 | a `0x` address on chain 80001 with balance `1.5` |
| WalletConnectButton.Button.constructor | src/components/WalletConnectButton.tsx:27-32 | no wallet, not connecting, dialog closed and empty fields |
| WalletConnectButton.Button.Connect | src/components/WalletConnectButton.tsx:55-74 | the wallet is shown only on success; the spinner stops either way |
| WalletConnectButton.Button.Disconnect | src/components/WalletConnectButton.tsx:76-91 | the wallet is cleared unless the library threw |
| WalletConnectButton.Button.DevConnect | src/components/WalletConnectButton.tsx:93-129 | refused with nothing changed unless both fields are non-blank; otherwise the dev wallet is shown, the fields cleared and the dialog closed |
| WalletConnectButton.Render | src/components/WalletConnectButton.tsx:135-166 | hidden iff the role is `Auditor`; the wallet view iff shown with a wallet, with the truncated address; otherwise the connect caption, `Connecting...` iff connecting |
| MilestoneCard.Status | src/components/MilestoneCard.tsx:95-118 | the four display statuses exactly partition `verified` and the presence of proofs |
| MilestoneCard.DisplayAgrees | src/components/MilestoneCard.tsx:95-118 | text, icon and colour follow the same precedence |
| MilestoneCard.TextDeterminesStatus | src/components/MilestoneCard.tsx:106-111 | equal texts mean equal statuses |
| MilestoneCard.GatesExclusive | src/components/MilestoneCard.tsx:213-241 | no role is offered both upload and verify; a decided milestone is never offered for verification |
| MilestoneCard.MockMilestonesNeverVerifiable | src/components/MilestoneCard.tsx:238-241 | store milestones always carry `verified`, so verify is never offered for them, and a rejected one without proofs is offered for upload |
| MilestoneCard.DecideUpload | src/components/MilestoneCard.tsx:66-78 | forwarded iff a file is selected, with that file; otherwise `No File Selected` |
| MilestoneCard.DecideVerify | src/components/MilestoneCard.tsx:80-93 | forwarded iff the comments are not blank, untrimmed; otherwise `Comments Required` |
| MilestoneCard.CardState.constructor | src/components/MilestoneCard.tsx:52-55 | nothing selected, modal closed, action `approve`, no comments |
| MilestoneCard.CardState.ChooseAction | src/components/MilestoneCard.tsx:259-272 | the Approve and Reject toggles set the action sent with the verdict |
| MilestoneCard.CardState.FileChosen | src/components/MilestoneCard.tsx:59-64 | an empty file list keeps the previous selection |
| MilestoneCard.CardState.UploadSubmit | src/components/MilestoneCard.tsx:66-78 | the decision on the selection; a forward clears it |
| MilestoneCard.CardState.VerifySubmit | src/components/MilestoneCard.tsx:80-93 | the decision on the comments; a forward closes the modal and clears them, a refusal keeps both |
| ProjectCard.UploadClosesUpload | src/components/ProjectCard.tsx:92-96 | once a milestone has a proof, no role may upload to it |
| ProjectCard.MergeReply | src/app/dashboard/components/GovernmentPanel.tsx:74-76 | every field comes from the reply, except optional fields it leaves out |
| ProjectCard.MergeById | src/app/dashboard/components/GovernmentPanel.tsx:74-76 | projects with the id take the merge; the others and the length are unchanged |
| ProjectCard.MergeByIdIdempotent | src/app/dashboard/components/GovernmentPanel.tsx:74-76 | merging a reply twice equals merging it once; a list without the id is unchanged |
| ProjectCard.Actions | src/components/ProjectCard.tsx:206-352 | each button appears iff its role and status gate holds; read-only shows none; Lock Funds carries the grant or 0 |
| ProjectCard.ActionsConsistent | src/components/ProjectCard.tsx:206-352 | approve always comes with flag; producers get no government action; approve and lock never appear together |
| ProjectCard.DecideApprove | src/components/ProjectCard.tsx:98-110 | forwarded iff the amount is positive, with the project's id and milestones; otherwise `Invalid Amount` |
| ProjectCard.DecideReject | src/components/ProjectCard.tsx:112-125 | forwarded iff the reason is not blank, untrimmed; otherwise `Reason Required` |
| ProjectCard.DecideFlag | src/components/ProjectCard.tsx:127-140 | forwarded iff the reason is not blank, untrimmed; otherwise `Reason Required` |
| ProjectCard.CardState.constructor | src/components/ProjectCard.tsx:72-77 | modals closed, the amount is the grant or 0, empty reasons |
| ProjectCard.CardState.ApproveSubmit | src/components/ProjectCard.tsx:98-110 | the approval decision; a refusal keeps the modal open |
| ProjectCard.CardState.RejectSubmit | src/components/ProjectCard.tsx:112-125 | the rejection decision; a forward closes and clears, a refusal keeps both |
| ProjectCard.CardState.FlagSubmit | src/components/ProjectCard.tsx:127-140 | the flag decision; a forward closes and clears, a refusal keeps both |
| ProjectFormModal.MilestoneProblem | src/components/ProjectFormModal.tsx:66-84 | a blank description is reported before a bad amount |
| ProjectFormModal.MilestonesVerdict | src/components/ProjectFormModal.tsx:66-84 | no verdict iff every milestone is valid; otherwise the problem of the first invalid one |
| ProjectFormModal.Validate | src/components/ProjectFormModal.tsx:34-95 | accepted iff name, description, a non-empty list and every milestone are valid, giving trimmed text; name and description refusals come first |
| ProjectFormModal.CheckMilestones | src/components/ProjectFormModal.tsx:66-84 | the loop with early return yields the verdict |
| ProjectFormModal.CheckForm | src/components/ProjectFormModal.tsx:34-95 | the early-return checks yield the validation |
| ProjectFormModal.VerdictAt | src/components/ProjectFormModal.tsx:66-84 | the verdict is the problem of the milestone where the loop stops |
| ProjectFormModal.FirstInvalidAt | src/components/ProjectFormModal.tsx:66-84 | the loop stops at the first invalid milestone |
| ProjectFormModal.AddMilestone | src/components/ProjectFormModal.tsx:98-100 | one blank entry appended; the total is unchanged |
| ProjectFormModal.RemoveMilestone | src/components/ProjectFormModal.tsx:102-106 | the last entry is kept; otherwise exactly the indexed entry goes and the total drops by its amount |
| ProjectFormModal.UpdateDescription | src/components/ProjectFormModal.tsx:108-112 | only the indexed description changes; the total is unchanged |
| ProjectFormModal.UpdateAmount | src/components/ProjectFormModal.tsx:108-112 | only the indexed amount changes; the total moves by the difference |
| ProjectFormModal.AcceptedTotalPositive | src/components/ProjectFormModal.tsx:114-116 | an accepted form has a positive total |
| ProjectFormModal.Form.constructor | src/components/ProjectFormModal.tsx:27-32 | empty name and description, one blank milestone |
| ProjectFormModal.Form.Submit | src/components/ProjectFormModal.tsx:34-95 | the validation result; a forward resets the form, a refusal changes nothing; the list is never empty |
| ProjectFormModal.Form.Reset | src/components/ProjectFormModal.tsx:88-94 | the form returns to its initial values |
| ProjectFormModal.Form.Add | src/components/ProjectFormModal.tsx:98-100 | the list becomes the added list |
| ProjectFormModal.Form.Remove | src/components/ProjectFormModal.tsx:102-106 | the list becomes the removed list and stays non-empty |
| ProjectFormModal.Form.SetDescription | src/components/ProjectFormModal.tsx:108-112 | the list becomes the updated list |
| ProjectFormModal.Form.SetAmount | src/components/ProjectFormModal.tsx:108-112 | the list becomes the updated list |
| RoleBasedDashboard.VisibleProjects | src/components/RoleBasedDashboard.tsx:27-37 | a producer sees the projects under their name; government and auditors see all; any other role sees none |
| RoleBasedDashboard.DashboardStats | src/components/RoleBasedDashboard.tsx:114-123 | counts and sums over the visible projects; completed never exceed the total; pending milestones are among all milestones |
| RoleBasedDashboard.PendingWithinMilestones | src/components/RoleBasedDashboard.tsx:117-119 | pending milestones never exceed all milestones |
| RoleBasedDashboard.SubsidyValueNonNegative | src/components/RoleBasedDashboard.tsx:120 | with no negative subsidy, the total is not negative |
| RoleBasedDashboard.SetField | src/components/RoleBasedDashboard.tsx:105-107 | the named field takes the value; the other three are untouched |
| RoleBasedDashboard.AddMilestone | src/components/RoleBasedDashboard.tsx:88-93 | one blank entry appended |
| RoleBasedDashboard.RemoveMilestone | src/components/RoleBasedDashboard.tsx:95-100 | exactly the indexed entry goes, order kept |
| RoleBasedDashboard.RemoveKeepsOne | src/components/RoleBasedDashboard.tsx:519 | through the offered buttons the list never becomes empty |
| RoleBasedDashboard.UpdateMilestone | src/components/RoleBasedDashboard.tsx:102-109 | only that field of that entry changes |
| RoleBasedDashboard.MilestoneIdInjective | src/components/RoleBasedDashboard.tsx:50 | ids of one request differ when their indexes do |
| RoleBasedDashboard.RequestMilestones | src/components/RoleBasedDashboard.tsx:49-56 | one request milestone per form entry, numbered by position |
| RoleBasedDashboard.CreatePayload | src/components/RoleBasedDashboard.tsx:44-57 | the user's name as producer, the parsed total subsidy; one pending milestone per entry, in order, with its title, description, target date, parsed amount and a distinct id |
| RoleBasedDashboard.Dashboard.constructor | src/components/RoleBasedDashboard.tsx:15-24 | form hidden, blank draft, not creating |
| RoleBasedDashboard.Dashboard.CreateProject | src/components/RoleBasedDashboard.tsx:39-86 | sends the payload; reloads iff accepted, which also closes and resets the form; the two failure alerts |
| RoleBasedDashboard.Dashboard.Add | src/components/RoleBasedDashboard.tsx:88-93 | the draft's list becomes the added list |
| RoleBasedDashboard.Dashboard.Remove | src/components/RoleBasedDashboard.tsx:95-100 | the draft's list becomes the removed list |
| RoleBasedDashboard.Dashboard.Update | src/components/RoleBasedDashboard.tsx:102-109 | the draft's list becomes the updated list |
| GovernmentPanel.ProjectsByTab | src/app/dashboard/components/GovernmentPanel.tsx:167-182 | each tab selects its status, `all` everything, any other tab nothing |
| GovernmentPanel.FilterNothing | src/app/dashboard/components/GovernmentPanel.tsx:178-180 | an unknown tab's filter is empty |
| GovernmentPanel.StatusStats | src/app/dashboard/components/GovernmentPanel.tsx:184-191 | each counter is its tab's length; the three status counters never exceed the total |
| GovernmentPanel.TabCountsBounded | src/app/dashboard/components/GovernmentPanel.tsx:186-188 | three distinct statuses count disjoint projects |
| GovernmentPanel.LockPayload | src/app/dashboard/components/GovernmentPanel.tsx:148-151 | no status; the hash as contract address; funds locked |
| GovernmentPanel.Panel.constructor | src/app/dashboard/components/GovernmentPanel.tsx:39-41 | no projects, loading, on the pending tab |
| GovernmentPanel.Panel.Load | src/app/dashboard/components/GovernmentPanel.tsx:48-63 | the reply replaces the list; a failure keeps it and shows an error; loading ends |
| GovernmentPanel.Panel.Update | src/app/dashboard/components/GovernmentPanel.tsx:65-90 | sends the payload; a reply is merged by id, a failure leaves the list |
| GovernmentPanel.Panel.ApproveProject | src/app/dashboard/components/GovernmentPanel.tsx:65-90 | sends the approve payload; merges the reply or shows the approve error |
| GovernmentPanel.Panel.RejectProject | src/app/dashboard/components/GovernmentPanel.tsx:92-115 | sends the reject payload; merges the reply or shows the reject error |
| GovernmentPanel.Panel.FlagProject | src/app/dashboard/components/GovernmentPanel.tsx:117-140 | sends the flag payload; merges the reply or shows the flag error |
| GovernmentPanel.Panel.LockFunds | src/app/dashboard/components/GovernmentPanel.tsx:142-165 | sends the lock payload only after a hash; success names the first ten hash characters; any failure shows the lock error |
| AuditorPanel.QueuesDisjoint | src/app/dashboard/components/AuditorPanel.tsx:103-119 | no project is both pending review and fully audited; one without milestones is fully audited |
| AuditorPanel.ReviewCount | src/app/dashboard/components/AuditorPanel.tsx:121-127 | a project contributes to the milestone counter iff it is pending review |
| AuditorPanel.NeedingReviewCoversPending | src/app/dashboard/components/AuditorPanel.tsx:103-127 | the milestone counter is at least the number of pending projects |
| AuditorPanel.StatusStats | src/app/dashboard/components/AuditorPanel.tsx:129-136 | flagged and completed counters are their lists' lengths, within the total; the milestone counter covers pending projects |
| AuditorPanel.Positioned | src/app/dashboard/components/AuditorPanel.tsx:269 | each card reports its position plus the offset |
| AuditorPanel.PendingCardsAsWritten | src/app/dashboard/components/AuditorPanel.tsx:265-276 | each card reports its place in the filtered list |
| AuditorPanel.PendingCardsFrom | src/app/dashboard/components/AuditorPanel.tsx:265-276 | each card reports its milestone's own position, ascending, and shows a milestone awaiting review |
| AuditorPanel.PendingCards | src/app/dashboard/components/AuditorPanel.tsx:265-276 | each card's index points at its milestone in the project |
| AuditorPanel.SameMilestonesShown | src/app/dashboard/components/AuditorPanel.tsx:265-276 | the corrected cards show exactly the filtered milestones, in order |
| AuditorPanel.PendingIndexIsFilteredPosition | src/app/dashboard/components/AuditorPanel.tsx:265-276 | with an unproven first milestone, the written card reports index 0 for the second; the corrected card reports 1 |
| AuditorPanel.Panel.constructor | src/app/dashboard/components/AuditorPanel.tsx:42-44 | no projects, loading, on the pending tab |
| AuditorPanel.Panel.Load | src/app/dashboard/components/AuditorPanel.tsx:51-70 | only Approved and Flagged projects are kept; a failure keeps the list |
| AuditorPanel.Panel.VerifyMilestone | src/app/dashboard/components/AuditorPanel.tsx:72-101 | a reply is merged by id with a toast naming the action; a failure leaves the list |
| ProducerPanel.StatusStats | src/app/dashboard/components/ProducerPanel.tsx:125-133 | each counter is its status's count; the four never exceed the list |
| ProducerPanel.StatusCountsBounded | src/app/dashboard/components/ProducerPanel.tsx:127-130 | the four status counts fit in the list |
| ProducerPanel.DistinctCountsBounded | src/app/dashboard/components/ProducerPanel.tsx:127-130 | four distinct statuses count disjoint projects |
| ProducerPanel.AppendProof | src/app/dashboard/components/ProducerPanel.tsx:101-104 | the URL is appended to the proofs, which now exist; nothing else changes |
| ProducerPanel.AppendProofAt | src/app/dashboard/components/ProducerPanel.tsx:99-106 | only an existing indexed milestone is touched |
| ProducerPanel.RecordProof | src/app/dashboard/components/ProducerPanel.tsx:97-109 | projects with the id get the proof on that milestone; others are unchanged |
| ProducerPanel.UploadMovesToVerification | src/app/dashboard/components/ProducerPanel.tsx:97-109 | after an upload the milestone is no longer uploadable and, while undecided, shows as pending verification |
| ProducerPanel.Panel.constructor | src/app/dashboard/components/ProducerPanel.tsx:38-40 | no projects, loading, modal closed |
| ProducerPanel.Panel.Load | src/app/dashboard/components/ProducerPanel.tsx:47-64 | only the user's own projects are kept; a failure keeps the list |
| ProducerPanel.Panel.Create | src/app/dashboard/components/ProducerPanel.tsx:66-90 | sends the form with the user as producer; the new project goes first and the modal closes; a failure keeps both |
| ProducerPanel.Panel.UploadProof | src/app/dashboard/components/ProducerPanel.tsx:92-123 | a URL is recorded on the milestone; a failure leaves the list |
| ProducerPage.Search | src/app/dashboard/producer/page.tsx:239-246 | a project is shown iff name, description or status contains the term ignoring case; an empty term keeps all |
| ProducerPage.EmptyTermKeepsAll | src/app/dashboard/producer/page.tsx:239-246 | an empty term filters nothing out |
| ProducerPage.PageStats | src/app/dashboard/producer/page.tsx:249-255 | counts and sums over all projects, completed milestones being the sum of each project's completed count; approved plus pending fit the total; completed milestones are among all |
| ProducerPage.TwoStatusesBounded | src/app/dashboard/producer/page.tsx:250-251 | two distinct statuses count disjoint projects |
| ProducerPage.CompletedWithinMilestones | src/app/dashboard/producer/page.tsx:252-255 | completed milestones never exceed all milestones |
| ProducerPage.ReplaceMilestone | src/app/dashboard/producer/page.tsx:176-187 | in projects with the id, milestones with the id become the reply; nothing else changes |
| ProducerPage.ReselectedClosesSubmit | src/app/dashboard/producer/page.tsx:319 | once a reply reporting the milestone completed is merged into the list, selecting the project from the list again shows that milestone without a Submit button |
| ProducerPage.StaleDetailKeepsSubmit | src/app/dashboard/producer/page.tsx:164-193 | the open detail view, a copy of the list entry, still offers Submit for the milestone the list now shows completed, and differs from the list entry |
| ProducerPage.RefreshView | src/app/dashboard/producer/page.tsx:257-334 | the refreshed view is absent exactly when no project is selected |
| ProducerPage.RefreshViewTracksList | src/app/dashboard/producer/page.tsx:176-187 | a view that copies a list entry, refreshed, equals that entry after the list's replacement |
| ProducerPage.RefreshedDetailClosesSubmit | src/app/dashboard/producer/page.tsx:319 | with the refreshed view, a completed reply closes the open view's Submit button for that milestone |
| ProducerPage.Page.constructor | src/app/dashboard/producer/page.tsx:33-142 | the seeded list, empty search, empty forms, both hidden, no project selected |
| ProducerPage.Page.Load | src/app/dashboard/producer/page.tsx:117-124 | the reply replaces the list; a failure keeps it |
| ProducerPage.Page.ApplySubsidy | src/app/dashboard/producer/page.tsx:148-162 | the created project goes last and the form resets and hides; a failure changes nothing |
| ProducerPage.Page.OpenUpload | src/app/dashboard/producer/page.tsx:322-330 | remembers the target and opens the upload form |
| ProducerPage.Page.Select | src/app/dashboard/producer/page.tsx:604-607 | "View Details" opens the detail view on a copy of the chosen matching list entry |
| ProducerPage.Page.Back | src/app/dashboard/producer/page.tsx:263-266 | "Back to Dashboard" closes the detail view |
| ProducerPage.Page.MilestoneUpload | src/app/dashboard/producer/page.tsx:164-193 | the reply replaces the milestone in the list and the form clears and hides; a failure changes nothing; the open detail view is left as it was |
| ProducerPage.Page.MilestoneUploadRefreshing | src/app/dashboard/producer/page.tsx:164-193 | the corrected upload: the open detail view takes the same replacement as the list, so a view that copied a list entry still equals it |
| GovernmentPage.SubsidyStats | src/app/dashboard/government/page.tsx:82-89 | exact status counts within the total; disbursed is the sum of APPROVED amounts |
| GovernmentPage.DistinctCountsBounded | src/app/dashboard/government/page.tsx:84-87 | four distinct statuses count disjoint entries |
| GovernmentPage.DisbursedWithinTotal | src/app/dashboard/government/page.tsx:88 | with no negative amounts, disbursed lies between 0 and the sum of all amounts |
| GovernmentPage.OfferedActions | src/app/dashboard/government/page.tsx:285-316 | approve and reject iff PENDING, terminate iff APPROVED, nothing otherwise |
| GovernmentPage.ReplaceSubsidy | src/app/dashboard/government/page.tsx:95-98 | entries with the id become the reply; others unchanged |
| GovernmentPage.ReplaceProducer | src/app/dashboard/government/page.tsx:100-103 | producers with the id become the reply; others unchanged |
| GovernmentPage.ReplaceSubsidyIdempotent | src/app/dashboard/government/page.tsx:95-98 | a reply keeping the id makes a second replacement change nothing |
| GovernmentPage.FilterProducers | src/app/dashboard/government/page.tsx:121-123 | a producer is shown iff name or email contains the term ignoring case |
| GovernmentPage.EmptySearchKeepsAll | src/app/dashboard/government/page.tsx:121-123 | an empty search shows every producer |
| GovernmentPage.Page.constructor | src/app/dashboard/government/page.tsx:62-72 | empty lists, no stats, loading, empty search and address |
| GovernmentPage.Page.LoadData | src/app/dashboard/government/page.tsx:75-93 | when all three fetches succeed the replies replace the lists and set the counters once; any failure, the reports fetch included, leaves the page loading and the lists unchanged |
| GovernmentPage.Page.SubsidyActionTaken | src/app/dashboard/government/page.tsx:95-98 | sends the action's name; the reply replaces the entry |
| GovernmentPage.Page.WalletVerify | src/app/dashboard/government/page.tsx:100-103 | the reply replaces the producer |
| GovernmentPage.Page.ConnectWallet | src/app/dashboard/government/page.tsx:105-118 | a blank address sends nothing and changes nothing; otherwise it is sent and cleared only on success |
| AuditorPage.Review | src/app/dashboard/auditor/page.tsx:10-14 | entries with the id take the status; others, order and length unchanged |
| AuditorPage.ReviewedOnce | src/app/dashboard/auditor/page.tsx:27-42 | a reviewed entry is no longer offered for review; others keep whether they were |
| AuditorPage.Dashboard.constructor | src/app/dashboard/auditor/page.tsx:5-8 | the two initial entries |
| AuditorPage.Dashboard.HandleReview | src/app/dashboard/auditor/page.tsx:10-14 | the list becomes the reviewed list |
| AuditorPage.Dashboard.Approve | src/app/dashboard/auditor/page.tsx:28-33 | the entry becomes Approved |
| AuditorPage.Dashboard.Reject | src/app/dashboard/auditor/page.tsx:34-39 | the entry becomes Rejected |

## Left out

- Network, HTTP framing, the database connection and the schemas: route
  bodies arrive as values, and a table or collection is a field.
- UsersCreate.Decide, UsersCreate.Accounts.Create, UsersLogin.RegisteredUserLogsIn:
  the user schema (`src/models/User.ts`, not part of this model) accepts only
  the roles `Producer`, `Government` and `Auditor` and declares no email or
  password field. A registration with a lower-case role therefore fails
  validation and answers 500 without a wallet. One with a capitalised role is
  stored without a wallet, and login, which lower-cases the role, never finds
  it (UsersLogin.CapitalisedRoleNeverFound). These members state the routes'
  own logic; the deployed program never reaches their wallet branch or a
  login after registration.
- Another schema mismatch: the transfer route looks up `userId`, while the
  wallet schema's field is `user`.
- Request bodies whose fields have other JSON types: body fields are typed
  as strings, numbers and records (absent or falsy values as `None`). A
  body field that is truthy but not a string, or a `null` milestone entry,
  makes the handler's own code throw (`name.trim()` and `milestone.title`
  in `src/app/api/projects/route.ts:158-180`, `title.trim()` in
  `src/app/api/milestones/route.ts:282-283`, `role.toLowerCase()` with a
  numeric role in `src/app/api/users/login/route.ts:15`), and the
  surrounding `catch` answers 500. These 500 replies, and those for a
  failure of the unmodelled database I/O, are not represented.
- Floating point: `parseFloat`, percentages, `toLocaleString` and date
  rendering. Amounts are integers and an unparsable amount is `None`.
- Dates are abstract integers.
- Randomness is a parameter: toast ids, wallet numbers, mock ids, simulated
  hashes and addresses, block numbers.
- MetaMask: `connectWallet`, the account and chain listeners, the ethers
  contract calls and `tx.wait` are the chain's reply, passed as a parameter.
- The `setTimeout` delays of the mock branches.
- Colour, icon and badge maps that only style the view (the milestone
  card's are modelled, because its status logic runs through them).
- ProducerPanel.Panel.UploadProof: the source writes the proof list into a
  milestone object shared with the previous state; the model copies it, so
  aliasing is not captured.
- Api.ApiClient.UploadMilestoneProof, Api.ApiClient.VerifyMilestone: the
  mock store is a shallow copy of the seed table, and these two write into
  the milestone objects in place (`src/lib/api.ts:159-162` and `:194-198`),
  so the source's seed table changes with them. The model's store is a value,
  so that aliasing is not captured.
- ProjectsRoute.Merge, ProjectsRoute.Update: the route spreads every key of
  the body other than `projectId` into the stored project and accepts any
  `status` string. The model's patch holds only the project record's fields
  and a status from the enum, so keys such as `rejectionReason`,
  `flagReason`, `contractAddress` and `fundsLocked` (which the government
  panel sends) and unknown status strings are not represented.
- Cross-file calls that do not type-check against their targets
  (`apiService`, `checkMockMode`, `getWalletInfo`). WalletConnectButton's
  initial `getWalletInfo` effect is therefore not modelled.
- ProducerPage.Page.Load, ProducerPage.Page.ApplySubsidy,
  ProducerPage.Page.MilestoneUpload: the page imports `applyProject` and
  `uploadMilestone`, which the data layer does not export, and
  `fetchProjects`, whose reply has the mock store's shape rather than the
  page's (`src/app/dashboard/producer/page.tsx:11`). These methods take the
  reply as a parameter in the page's own shape.
- Text.ToLower, and through it ProjectsRoute.List, ProducerPage.Search,
  GovernmentPage.FilterProducers, UsersLogin.Login,
  UsersLogin.RegisteredUserLogsIn and UsersLogin.CapitalisedRoleNeverFound:
  `toLowerCase` is modelled on ASCII
  letters only, so non-ASCII letters are not folded.
- Text.IsSpace, and through it Text.Trim, Text.ParseAmount,
  ProjectsRoute.Create, MilestonesRoute.Add, ProjectFormModal.Validate and ProjectCard.DecideApprove, DecideReject and
  DecideFlag: `trim` removes tab, vertical tab, form feed, space, no-break
  space, the byte-order mark and the four line terminators, but not the
  other Unicode space separators (U+1680, U+2000 to U+200A, U+202F, U+205F,
  U+3000). A string made only of those is blank to the source but not to
  the model.
- Concurrency and React's effect and render ordering: each handler runs to
  completion.
- The reports of the government page: their contents are only displayed and
  are not kept; only whether their fetch succeeded is modelled.
- ProducerPage.Page.constructor: the hard-coded starting projects are a
  constructor parameter rather than their literal values.
- GovernmentPage.Page.SubsidyActionTaken: the counters are not recomputed
  after an action, as in the source.
- ProjectFormModal.Validate: the `Milestones Required` refusal cannot occur
  through the form, whose list always holds an entry; it is modelled but no
  reachable state produces it.

## Findings

| source | as written | input that shows it | evidently intended | confidence | as-written member | corrected member |
|---|---|---|---|---|---|---|
| src/app/dashboard/components/AuditorPanel.tsx:265-276 | the pending tab filters the milestones first and then numbers the cards, so a card's index is its position in the filtered list | milestones [no proof, has proof]: the single card reports index 0, and verifying it acts on the milestone without a proof | each card reports its milestone's position in the project | not executed | AuditorPanel.PendingCardsAsWritten (shown by AuditorPanel.PendingIndexIsFilteredPosition) | AuditorPanel.PendingCards (with AuditorPanel.SameMilestonesShown) |
| src/app/api/wallet/transfer.ts:9-20 | both wallets are loaded before either changes, and `to` is saved last, so a self-transfer overwrites the debit with the credit | balances {u: 100}, transfer 30 from u to u: u ends at 130 | money is conserved, and a self-transfer changes nothing | not executed | WalletTransfer.TransferStepAsWritten (shown by WalletTransfer.SelfTransferMints) | WalletTransfer.TransferStep (with WalletTransfer.TransferConserves) |
| src/app/dashboard/producer/page.tsx:164-193 | the detail view draws its milestones and the Submit gate from `selectedProject`, a copy of the list entry taken at selection, and the upload handler refreshes only the list | select an Approved project with an in-progress milestone, upload a proof whose reply reports it completed: the open view still shows it in progress and offers Submit until Back and a new selection | the open detail view shows the uploaded milestone's new state at once | not executed | ProducerPage.Page.MilestoneUpload (shown by ProducerPage.StaleDetailKeepsSubmit) | ProducerPage.Page.MilestoneUploadRefreshing (with ProducerPage.RefreshViewTracksList and ProducerPage.RefreshedDetailClosesSubmit) |
