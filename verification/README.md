# A verified model of the Pine Computer client

The Go client drives one durable *Computer* over several unreliable peers: Portal, which holds the
Computer's binding; the control plane, which runs sandboxes; the coordinator inside a sandbox; and
object storage. What it promises holds over whole runs against those peers, so each peer is modelled
as an environment that may do anything within stated assumptions, and the client's own loops and
state are proved against specifications of what it keeps.

- `Fencing`: any number of concurrent Start, Recover and Create calls on one Computer, as an interleaved step system.
- `Client`: the program each of those calls runs, every effect of which is a step of `Fencing`.
- `Binder`, `Classify`, `Hpke`, `PriorKeys`: the bind handshake, the retry class of its errors, sealed boxes as terms, the restore key.
- `Upload`, `Download`, `DownloadSpec`, `Storage`, `Ranges`: resumable transfers and their range headers.
- `Sse`, `Feed`, `Text`: the server-sent-event framer and the resuming feed on top of it.
- `Lifecycle`, `Pace`: status observation, readiness, stop, terminate and release of failed sandboxes.
- `Agent`: transport retry, lost-response resend, the turn wait.
- `TokenCache`: the storage-token cache under concurrent callers.
- `Keypairs`: the capture-keypair registry.

`dafny verify dfyconfig.toml` covers the whole project.

## Assumptions about the environment

- Portal advances a binding only when the expected revision is current, to a higher revision; the same
  idempotency key replays the same receipt; it stops naming a sandbox only once that sandbox is released. A mint
  whose response the client no longer waits for may reach it at any later time, and so may a create the control
  plane.
- "Released" and "not found" are permanent, and a control plane that shows them is right. Sandbox ids are
  never reused.
- The public key of a sealed box is fingerprinted without collisions and only its private key opens it
  (mode_base, section 5.1.1 of RFC 9180).
- Storage keeps a prefix of an upload and reports truthfully how long it is. It may forget bytes at the end of
  that prefix at any time.
- A generation of an object has one content and, once replaced, is never current again. A 200 names it.
- The event server replays every event after Last-Event-ID in order and gives each an id of its own. It may
  lay its fields out as it likes and send comments, other fields, and frames that yield no event in between.
- Portal never issues the same storage credential twice, so tokens are told apart by the mint they came from.
- Clocks do not run backwards and a completed sleep lasts at least as long as asked.

Durations are integers in nanoseconds. Loops that need not end by themselves (a feed, a status wait, an
upload to forgetful storage) are followed for as long as a script lasts, for every script.

## Where the code and a natural reading differ

- An error from Start or Create names the authorization it committed if and only if Portal granted no mint
  whose response was lost (`Fencing.CommittedReportExact`). Otherwise a failed call's own sandbox can stay
  authorized and unreported (`Fencing.LostReceiptUnreported`).
- A failed call kills its sandbox only if it learned of it. A create whose response is lost leaves one that no
  call kills (`Fencing.LostCreateLeavesOrphan`, `Client.OrphanNotKilled`); it is never authorized
  (`Fencing.OrphanNeverAuthorized`).
- Stop ignores evidence of release in exactly one place: the record it rereads after its stop request met a
  conflict. If that record is missing, or terminated with `COMPUTE_RELEASED`, Stop returns false with an error
  (`Lifecycle.Stop`).
- Pause and Resume report a timeout although the target state was read, if the operation's own time is up by
  then (`Lifecycle.SandboxHandle.TransitionMemory`).
- The current capture generation need not be the newest registered: a prior may be added before any
  current keypair (`Keypairs.CurrentNeedNotBeNewest`; `Keypairs.NewestExactly` says when it is).
- The framer's byte cap counts comments, so a stream of keepalives alone ends with the size error
  (`Sse.KeepalivesCount`).
- A download that ends with a known size need not be whole: the size is never reset, so it may belong to a
  replaced object (`DownloadSpec.KnownSizeCutsShort`). What decides is whether the response that told the size
  was of the generation the bytes are from (`DownloadSpec.EndProvesWhole`).
- After a zero-byte drop a download's pinned generation can be older than the bytes delivered later; such a
  reader never gets another byte once its body has ended (`DownloadSpec.StaleForGood`).
- An upload can go on for ever, but only against storage that keeps forgetting: it ends if and only if the bytes
  forgotten are bounded (`Upload.EndsExactly`, `Upload.ForgetfulNeverEnds`).

## Model

| member | source | states |
|---|---|---|
| `Fencing.OneLiveAuthorization` | client.go:369-420 | in every interleaving: revisions strictly increase, no sandbox is authorized twice, every authorization but the newest belongs to a released sandbox, at most one authorized sandbox is live |
| `Fencing.GrantNeedsRelease` | internal/binder/binder.go:245-279 | at the moment an authorization is committed every earlier authorized sandbox is already released, and it replaces exactly the newest one |
| `Fencing.ProvisionNeedsRelease` | client.go:381-403 | a sandbox is provisioned, by a late create request too, only when every sandbox named at or below the frozen revision is released |
| `Fencing.OneLiveWinner` | client.go:416-419 | two calls that returned an attached Computer whose sandbox still runs are the same call |
| `Fencing.CommittedReportExact` | client.go:447-461 | while a failing call cleans up and once its error is returned: the authorization it reports is real and its own, and the report is complete if and only if Portal granted no mint whose response was lost |
| `Fencing.LostReceiptUnreported` | client.go:447-461 | a run in which a lost mint response leaves an unreported live authorization |
| `Fencing.OrphanNeverAuthorized` | computer.go:443-452 | in every run a sandbox whose create response was lost is never authorized and no call answers for it |
| `Fencing.LostCreateLeavesOrphan` | computer.go:443-452 | a run in which a lost create response leaves a running sandbox no call knows of |
| `Fencing.RunKeepsInv` | client.go:369-420 | the inductive invariant of log, Portal and every call's phase holds after every run |
| `Fencing.StepKeepsInv` | computer.go:443-465 | every step of every call and of the environment keeps that invariant |
| `Fencing.GrantStep` | internal/binder/binder.go:245-279 | the compare-and-swap that commits an authorization keeps it |
| `Fencing.WinnerUnknowing` | internal/binder/binder.go:270-279 | only a call that holds no receipt can still win the compare-and-swap, and then nothing named is live; late requests of failed calls included |
| `Fencing.RevisionsIncrease` | internal/binder/binder.go:270-279 | any later authorization expected at least the revision any earlier one was given |
| `Client.StartComputer` | client.go:369-420 | Start and Recover, interleaved with anything others do, take only steps the system allows; it succeeds if and only if nothing stands in the way of its attach and every request of the attach succeeds with an advancing receipt; an error gives the reason by what the call met, and what it met is what Portal and the control plane answered; at most one authorized sandbox is live afterwards |
| `Client.SeekRelease` | client.go:381-403 | the named sandbox is released when the evidence is accepted; one shown released is never retained; a refusal says whether it could not be observed, is retained, could not be released or not confirmed |
| `Client.CreateComputer` | client.go:261-318 | the same for Create at revision 0: success if and only if every request of the attach succeeds with an advancing receipt |
| `Client.Computer.Attach` | computer.go:394-514 | attached if and only if create, readiness and bind succeed and the first mint response that arrives is an advancing receipt; then to the call's own authorized sandbox; failure leaves no sandbox and fields that agree with the authorization known to be committed |
| `Client.CreateSandbox` | computer.go:443-452 | the create request gives the call a sandbox of its own if it is valid and answered, or ends it without one it knows of |
| `Client.Computer.Authorize` | internal/binder/binder.go:245-279 | mints until a response arrives, which is Portal's at that step; authorized exactly if it is a receipt above the frozen revision, for the call's own sandbox, and recorded in the fields; otherwise nothing is recorded |
| `Client.Computer.CommittedError` | client.go:447-461 | the error carries revision and sandbox of the recorded authorization, and none if there is none |
| `Client.CleanUp` | computer.go:455-462 | a failed attach asks for its sandbox to be killed and keeps what it knows committed |
| `Client.FailedCallsClean` | computer.go:455-462 | in every run, a call that learned of the sandbox it created keeps to it and, once it ended in an error, has asked for it to be killed |
| `Client.OrphanNotKilled` | computer.go:449-452 | in every run, a call whose create response was lost knows of no sandbox and asks for none to be killed |
| `Client.Network.Others` | client.go:369-420 | whatever others and late requests do keeps what the call knows of its own phase, and everything released |
| `Binder.Bind` | internal/binder/binder.go:135-235 | against any server: one granted mint and no later mint, OnAuthorized at most once and above the expected revision, one identical envelope in every POST, made from one turn's pod identity and receipt, restore secrets always the answer to the latest challenge since the last expiry, each answer right; every end has its cause in the last turn, and not ready only once the deadline has passed, so a readiness fault before it is followed by another turn; at most W + 7 * MaxBindAttempts iterations |
| `Binder.Handshake` | internal/binder/binder.go:147-235 | the loop, with the same iteration bound and the same causes, its history as the watch sees it, and the turn its envelope was made from |
| `Binder.TakeTurn` | internal/binder/binder.go:153-234 | one turn ends, answers, restarts or waits as its own answers call for, and posts only the envelope held or made in it |
| `Binder.FromOneReceipt` | internal/binder/binder.go:176-180 | every POST carries the payload sealed for the pod and receipt of one turn, whose revision is the one authorized |
| `Binder.DefaultBudget` | internal/binder/binder.go:104-117 | at the defaults W is 43 and the iteration bound 64 |
| `Binder.WaitsFrom` | internal/binder/binder.go:473-479 | W is the least number of capped waits whose sum reaches the timeout |
| `Binder.WaitSumClosed` | internal/binder/binder.go:473-479 | the closed form of the capped waits' sum |
| `Binder.MintEnvelope` | internal/binder/binder.go:245-329 | an envelope exactly if the pod answers, the keypair is registered and the receipt is complete, advancing and at an acceptable location; sealed to the fetched pod identity with the right payload; after a granted mint no failure is retryable |
| `Binder.AnswerChallenge` | internal/binder/binder.go:354-398 | an answer exists exactly when every component unwraps, and names every component with the secret of its last mention |
| `Binder.AnswersDisclose` | internal/binder/binder.go:354-398 | over a whole handshake: every answer opens for the posted-to pod under its restore domain and for nothing else, names every challenged component, and holds for each name a secret sealed in the challenge to the registered key of the named generation and fingerprint, for this Computer |
| `Binder.PostBind` | internal/binder/binder.go:176-234 | success exactly on a token; a challenge answered unless it cannot be or the rounds are spent; a forgotten one restarted unless the attempts are; a readiness fault leaves the envelope as it was |
| `Binder.RetriedExactly` | internal/binder/binder.go:450-470 | exactly which faults are sent again |
| `Binder.TryMint` | internal/binder/binder.go:157-174 | a retryable mint failure never followed a receipt; an envelope is the one made from this turn |
| `Binder.WatchMeans` | internal/binder/binder.go:135-235 | a history accepted event by event keeps all five promises as stated over positions |
| `Binder.WatchCounts` | internal/binder/binder.go:186-218 | the loop's counters equal the rounds and expiries counted from the history |
| `PriorKeys.RestoreKey` | internal/binder/binder.go:431-442 | the prior key of the highest version, none if there are none |
| `Upload.AlwaysSafe` | internal/artifacts/upload.go:193-228 | against every storage: it holds a prefix of the source, every PUT carries data[offset..] under the matching range, a send starts at exactly what storage holds, success means exactly the source |
| `Upload.PutsBounded` | internal/artifacts/upload.go:193-228 | against every storage: at most 11 PUTs per byte of the source, one more, and each byte storage forgot; so an upload unfinished after n turns has lost at least n/11 - size - 1 |
| `Upload.EndsExactly` | internal/artifacts/upload.go:193-228 | an upload ends if and only if storage forgets boundedly many of its bytes |
| `Upload.Terminates` | internal/artifacts/upload.go:193-228 | while storage has forgotten nothing: at most 11 PUTs per offset, at most 11 * (size + 1) in all, and a result by then |
| `Upload.ForgetfulNeverEnds` | internal/artifacts/upload.go:193-228 | against one storage that forgets again and again an upload of two bytes or more never ends |
| `Upload.SendUpload` | internal/artifacts/upload.go:193-228 | the loop is the specification's run, safe against every storage and bounded by the size and the bytes storage forgot; its result is explained by storage's last answer |
| `Upload.ResultExplained` | internal/artifacts/upload.go:204-227 | success exactly on the finished object; refused exactly on an error not resumed; given up exactly after five questions in a row that moved nothing; context ended only if it had |
| `Upload.Recovers` | internal/artifacts/upload.go:193-228 | two turns in a row in which storage works finish any upload that is not over and has budget left |
| `Upload.Trouble` | internal/artifacts/upload.go:204-227 | the client asks only after an error worth resuming or a send that moved nothing |
| `Upload.AlwaysAccounted` | internal/base/wait/reconnect.go:15 | in every run each step back of the offset is paid for by forgotten bytes, and each offset gained costs at most 11 PUTs |
| `Upload.HeaderNamesBody` | internal/artifacts/upload.go:232-241 | the range a PUT announces reads back to where its body starts and the whole size |
| `Upload.AlwaysBounded` | internal/base/wait/reconnect.go:15 | the account of PUTs for each single offset, through every run in which nothing was forgotten |
| `Ranges.KeptRoundTrip` | internal/artifacts/upload.go:292-302 | storage's report of the bytes it kept reads back exactly |
| `Ranges.RangeRoundTrip` | internal/artifacts/read.go:222-237 | a Content-Range reads back to its first byte and total |
| `Download.Download` | internal/artifacts/read.go:38-69 | the bytes are how one generation begins, which was current at one of the requests; at end of file they are all of it if the size known was told of that generation; any other stop has its cause, so a drop within the budget is followed by a GET at the offset; the moves made are a run, so everything proved of runs holds |
| `DownloadSpec.EndProvesWhole` | internal/artifacts/read.go:104-107 | over every store that takes the reader through the same books: an end of file proves the file whole if and only if the size known was told by a response of the generation the bytes are from (or no file can be longer) |
| `DownloadSpec.LongerSame` | internal/artifacts/read.go:160-212 | a run that was told no length of a generation cannot tell it from a longer one cut at the same place |
| `DownloadSpec.KnownSizeCutsShort` | internal/artifacts/read.go:184-186 | a run in which the size known belongs to a replaced object and an early end is taken for the end of the file |
| `DownloadSpec.WholeBodyEnds` | internal/artifacts/read.go:104-107 | a body that ends cleanly once all of its generation is delivered ends the file, unless the size known is a longer object's |
| `DownloadSpec.RunSound` | internal/artifacts/read.go:87-212 | every run keeps: delivered bytes of one generation, a body that continues them, a pin no younger than they are, a size that is its generation's |
| `DownloadSpec.OpenedSound` | internal/artifacts/read.go:160-212 | whatever a GET is answered: an opened body continues what was delivered, and a pin older than the bytes opens none |
| `DownloadSpec.StaleForGood` | internal/artifacts/read.go:167-170 | once the pin is older than the bytes, no later request of any kind delivers another |
| `Download.Reader.Read` | internal/artifacts/read.go:87-122 | every read extends what was delivered, from the same generation once any bytes came, and returns nothing only with an end |
| `Download.Reader.Connect` | internal/artifacts/read.go:137-157 | reopens at the offset within the budget of reconnects without a byte, and stops only for cause: context, a fault not resumed, or the budget |
| `Download.Reader.Open` | internal/artifacts/read.go:160-212 | one GET is the run's next move; a body is one that continues what was delivered; a pin older than the bytes only meets faults |
| `Download.Reader.TakeWhole` | internal/artifacts/read.go:180-195 | a 200 pins the generation once, records a length if given, and is skipped to the offset or refused as cut |
| `Download.Reader.TakePart` | internal/artifacts/read.go:196-205 | a 206 is taken only if it resumes exactly at the offset |
| `Download.Reader.Pull` | internal/artifacts/read.go:98-105 | the next bytes continue the delivered prefix; the failure count resets exactly when bytes came |
| `Download.Reader.EndBody` | internal/artifacts/read.go:104-118 | end of file exactly on a clean end at or past the known size; otherwise the caller's end exactly if its context ended, and a drop to resume if not |
| `Download.Reader.OpenAuthorized` | internal/artifacts/artifacts.go:201-216 | one request, or exactly two after a refused token, keeping the reader sound |
| `Sse.TruncationSafe` | internal/base/sse/sse.go:49-115 | the frames of any prefix of a byte stream are a prefix of its frames |
| `Sse.RoundTrip` | internal/base/sse/sse.go:61-113 | printed frames come back, with LF or CRLF at each line and comments between any lines, within the cap |
| `Sse.PrintParse` | internal/base/sse/sse.go:61-113 | parsing undoes printing on every list of frames that can be sent |
| `Sse.CutRoundTrip` | internal/base/sse/sse.go:49-115 | cut anywhere and under any cap, the frames that come are the first ones sent |
| `Sse.CutMeans` | internal/base/sse/sse.go:49-115 | lines in any layout, cut anywhere and under any cap, give the first of their frames |
| `Sse.CommentsIgnored` | internal/base/sse/sse.go:92-108 | removing comment lines changes no frame |
| `Sse.KeepalivesCount` | internal/base/sse/sse.go:56-90 | comments and blank lines alone dispatch nothing and die exactly when their bytes pass the cap |
| `Sse.WireMeans` | internal/base/sse/sse.go:61-113 | reading bytes gives the frames of their lines, however each line is ended |
| `Sse.FramesWithCap` | internal/base/sse/sse.go:49-115 | the loop computes the reference reading, size error included |
| `Sse.ReadLine` | internal/base/sse/sse.go:120-135 | a line through its LF, the rest of the stream, or too long, exactly as the position of the next LF says |
| `Feed.ResumeStream` | internal/coordinator/stream.go:416-460 | however connections are cut and frames laid out: the events are exactly the decodable journal events after the cursor up to the one place where the new cursor stands, in order, none twice, none missing; finished exactly at the caller's stop or terminal event; refused exactly if the last open failed for good; cancelled only if a context ended; lost exactly when the budget of connections that brought no event is spent |
| `Feed.PumpFrames` | internal/coordinator/stream.go:467-496 | one connection yields the decodable events of its frames and moves the cursor past every frame with an id, frames without one between them included |
| `Feed.Follow` | internal/coordinator/stream.go:446-454 | one established stream continues the events and, if whole, reaches the journal's end |
| `Feed.ConnectionFrames` | internal/base/sse/sse.go:49-115 | a connection cut anywhere yields the journal's next frames among those without an id, all of them if it is whole |
| `Feed.StandsOnce` | internal/coordinator/stream.go:467-481 | a cursor names one place in the journal |
| `Feed.OneMore` | internal/coordinator/stream.go:506-514 | the budget counts connections in a row without an event |
| `Lifecycle.SandboxHandle.WaitUntilState` | sandbox_handle.go:65-99 | success exactly on the target observed in this call, the observations being what the answers showed; at most one request per interval of the timeout plus one per entity-tag change; no sleep outlasts the deadline; every failure has its cause in the last request, and it goes on only while the context and its sleeps last |
| `Lifecycle.SandboxHandle.WaitUntilRunning` | sandbox_handle.go:58-63 | a sandbox already running is not polled; success means running; the same request bound, and failure only in the terminal state last seen |
| `Lifecycle.SandboxHandle.TransitionMemory` | sandbox_handle.go:101-128 | pause and resume succeed only on the target state read after the request; a target reached is reported as a timeout exactly if the operation's own time is up by then |
| `Lifecycle.Stop` | sandbox_handle.go:131-208 | true exactly at the first evidence of release and never with an error, unless that evidence is the record reread after a conflict, which is always an error; one stop request exactly when the first observation calls for it; unconfirmed without an error only when the wait ran out; every error has its cause; looks are what the answers showed; bounded requests |
| `Lifecycle.BeginStop` | sandbox_handle.go:136-168 | the first look, the stop request and the reread, and exactly when the wait begins |
| `Lifecycle.AwaitStop` | sandbox_handle.go:169-207 | the wait of Stop: true exactly at its first evidence, at most one request per interval plus one per change |
| `Lifecycle.ReleaseFailed` | sandbox_handle.go:218-254 | true exactly at the first evidence the answers showed; one conditional release for a recorded failure only; otherwise left alone with an error; every error has its cause; at most two requests per interval plus one per change |
| `Lifecycle.Terminate` | sandbox_handle.go:259-309 | true exactly at the first evidence the answers showed and never with an error; unconfirmed without an error only when the wait ran out; an error only if the caller's context or a sleep ended; at most two requests per interval plus one, plus one per change |
| `Lifecycle.LookedOnce` | sandbox_handle.go:287-292 | why two: a failed observation forgets the entity tag, so the next answer counts as news and is not paced |
| `Pace.PacedStep` | sandbox_handle.go:334-336 | an observation without news, slept out, keeps requests within one per interval |
| `Agent.PostAgentTurn` | internal/coordinator/agent.go:328-352 | at most 8 requests and 3 sends each, all identical; no resend due later than 30 s; a request not to be repeated reaches the wire once; only lost responses are followed by another send, and each is, unless the wait would pass 30 s or was cut |
| `Agent.DoRaw` | internal/base/transport/transport.go:209-227 | resends on transient faults and on statuses the request names only, within the budget, and stops early only on another answer or a cut sleep |
| `Agent.RetryAttempts` | internal/base/transport/transport.go:187-192 | every request is sent at least once and within the budget; a streamed body is never sent twice, nor a mutating request that did not opt in; any other request has the whole budget |
| `Agent.EighthWaitIsTooLate` | internal/coordinator/agent.go:315-321 | seven least waits fit the resend budget and eight do not |
| `Agent.AgentWait` | internal/coordinator/agent.go:95-139 | at most one read per second of the timeout plus one; holds as long as the time left allows and no longer; a working turn is returned only after the timeout, any other at once; an error only on a read not worth repeating, a spent timeout or a cut pause |
| `Agent.Hold` | internal/coordinator/agent.go:95-139 | the hold never exceeds the time left nor the request limit, and is not zero while a second is left |
| `TokenCache.NeverHandedOutAgain` | internal/artifacts/artifacts.go:108-132 | in every interleaving a dropped token is never handed out again, and a cached token only while it is not about to expire |
| `TokenCache.TwoSendsTwoTokens` | internal/artifacts/artifacts.go:201-216 | each call sends at most twice, with different tokens, and no write with a read-only one |
| `TokenCache.DroppedForGood` | internal/artifacts/artifacts.go:126-132 | what was dropped stays dropped through the rest of any run |
| `TokenCache.RunKeepsInv` | internal/artifacts/artifacts.go:108-132 | the invariant of cache, dropped tokens and calls in flight holds after every run |
| `TokenCache.DropsOnlyItsToken` | internal/artifacts/artifacts.go:126-132 | a drop removes that token and no other, so a replacement another call put there stays |
| `TokenCache.Store.TokenFor` | internal/artifacts/artifacts.go:108-124 | hands out and caches as the step of the system does |
| `TokenCache.Store.Drop` | internal/artifacts/artifacts.go:126-132 | forgets the token unless another call already replaced it |
| `TokenCache.Store.WithToken` | internal/artifacts/artifacts.go:201-216 | with any use of the cache by others in between: at most two sends, the second after a refusal and with another token minted since, and no write with a read-only one |
| `Keypairs.ConfigureOrderFree` | computer.go:314-374 | the batch accepts a list of priors exactly when it accepts every reordering, with the same end, which is that of Set followed by AddPrior one by one in any order |
| `Keypairs.Computer.ConfigureCaptureKeypairs` | computer.go:314-374 | the batch is Set then AddPrior for each, refused for duplicate or invalid priors or priors without a current keypair; on refusal nothing changes |
| `Keypairs.Computer.SetCaptureKeypair` | computer.go:256-275 | refused for nil, invalid, older or conflicting material, and then nothing changes |
| `Keypairs.Computer.AddPriorCaptureKeypair` | computer.go:280-298 | never changes the current generation; refused for nil, invalid, not older or conflicting material, and then nothing changes |
| `Keypairs.Prepare` | computer.go:324-338 | the first pass accepts exactly valid priors of distinct generations |
| `Keypairs.AddAllMeans` | computer.go:280-298 | adding priors one by one succeeds exactly when each could be added alone and no two conflict, and registers exactly them beside what was there |
| `Keypairs.AddAllOrderFree` | computer.go:280-298 | neither order nor repetition of priors matters |
| `Keypairs.RunsOnlyMoveForward` | computer.go:256-374 | between any two points of any run the current generation has not decreased and no registered material has changed |
| `Keypairs.NewestExactly` | computer.go:280-298 | the current generation is the newest registered if and only if no prior added before the first current keypair lies above it |
| `Keypairs.CurrentNeedNotBeNewest` | computer.go:280-298 | a two-call run after which it is not |
| `Keypairs.SetExactly` | computer.go:256-275 | after any run: a keypair becomes current exactly if it is well formed, not older than the current one, and new or the same |
| `Keypairs.PriorExactly` | computer.go:280-298 | after any run: a prior is accepted exactly if it is well formed, older than the current one if there is one, and new or the same |
| `Keypairs.RepeatChangesNothing` | computer.go:256-374 | every accepted call, the batch included, is accepted again and then changes nothing |

## Left out

- HTTP, TLS, timers and idle watchdogs; a watchdog's effect is a body that ends with a fault.
- Real cryptography: sealing and opening are symbolic terms, and key erasure is not modelled.
- JSON, URLs, regular expressions, error texts, logging and redaction.
- Backoff jitter: a wait is any value of at least its documented length.
- The internals of Portal, the control plane, the coordinator and storage beyond the assumptions above.
- Concurrent low-level `Attach` on one handle, and Create at a caller-chosen non-zero revision: both bypass the release check.
- Drive, files, skills, passkeys and control calls, and most coordinator calls, each of which is one request.
- Ephemeral Computers in `Client` (they follow the same steps), listing and deletion of Computers.
- The mutexes of Computer and Store: their critical sections are single steps or single method calls; cloning of key material is implied by values.
- Client.StartComputer: the state shown in the retained error is not modelled.
- Download.Download: writing to a temporary file and renaming it is not modelled.
- Download.Reader.Read: Close and reads after it are not modelled.
- Lifecycle.ReleaseFailed: the 90-second limit and an earlier end of the caller's context are the same error.
