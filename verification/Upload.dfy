// Resumable upload (internal/artifacts/upload.go): one upload session, whose connection may be cut
// at any byte, whose answers may be lost, and which may even forget bytes it had kept.
module Upload {
  import opened Common
  import opened Ranges
  import opened Storage

  // ---------------------------------------------------------------- the client's requests

  datatype Put =
    | Whole                                             // an empty file: no body, no range
    | Ask(total: nat)                                   // "bytes */total"
    | Send(first: nat, last: nat, total: nat, body: seq<Byte>)

  function Header(put: Put): string {
    match put
    case Whole => ""
    case Ask(total) => "bytes */" + Decimal(total)
    case Send(first, last, total, _) => RangeHeader(first, last, Some(total))
  }

  // putBytes: the rest of the data, or the question when nothing is left to send.
  function PutBytes(data: seq<Byte>, offset: nat): Put {
    if data == [] then Whole
    else if offset >= |data| then Ask(|data|)
    else Send(offset, |data| - 1, |data|, data[offset..])
  }

  // ---------------------------------------------------------------- storage

  datatype Answer =
    | Replies(final: bool)      // an honest reply; `final` says whether a complete upload is already an object
    | Fails(fault: Fault)       // the answer is an error or never arrives

  // What one request meets: bytes forgotten before it, bytes of its body that arrive, the answer, and
  // whether the caller's context has ended by then.
  datatype Deal = Deal(forgets: nat, arrive: nat, answer: Answer, ctxEnded: bool)

  // What is left after storage forgets bytes at the end.
  function Remembered(held: seq<Byte>, forgets: nat): seq<Byte> {
    if forgets >= |held| then [] else held[..|held| - forgets]
  }

  // Storage keeps a prefix and takes a body only where it continues that prefix.
  function Keep(held: seq<Byte>, put: Put, deal: Deal): seq<Byte> {
    var base := Remembered(held, deal.forgets);
    match put
    case Send(first, _, _, body) =>
      var got := if deal.arrive < |body| then deal.arrive else |body|;
      if first <= |base| < first + got then base + body[|base| - first..got] else base
    case _ => base
  }

  datatype Reply = Saved | Kept(bytes: nat) | Error(fault: Fault)

  // A 308 reports how many bytes storage has; its Range header says so as KeptHeader does.
  function Respond(held: seq<Byte>, size: nat, deal: Deal): Reply {
    match deal.answer
    case Fails(f) => Error(f)
    case Replies(final) => if final && |held| == size then Saved else Kept(|held|)
  }

  // ---------------------------------------------------------------- one turn of sendUpload

  datatype Result = Success | GaveUp(cause: Fault) | Refused(cause: Fault) | ContextEnded

  // A PUT as sent, with the client's offset at the time.
  datatype Sent = Sent(offset: nat, put: Put)

  datatype State = State(
    held: seq<Byte>,            // storage
    offset: nat, last: Option<Fault>, failures: nat,
    log: seq<Sent>, result: Option<Result>)

  const Start := State([], 0, None, 0, [], None)

  // The client's reading of a reply; `asked` says the request was the question after a failure.
  function Read(s: State, reply: Reply, asked: bool, ctxEnded: bool): State {
    match reply
    case Error(f) => if Resumable(f, ctxEnded) then s.(last := Some(f)) else s.(result := Some(Refused(f)))
    case Saved => s.(result := Some(Success))
    case Kept(n) =>
      if n > s.offset then s.(offset := n, failures := 0, last := None)
      else if !asked then s.(last := Some(Other))       // no progress: as good as a fault
      else s.(offset := n, last := None)
  }

  // The state in which a reply is read: the request logged and storage's bytes moved on.
  function Requested(s: State, put: Put, deal: Deal): State {
    s.(held := Keep(s.held, put, deal), log := s.log + [Sent(s.offset, put)])
  }

  function Exchange(data: seq<Byte>, s: State, put: Put, deal: Deal): State {
    var s1 := Requested(s, put, deal);
    Read(s1, Respond(s1.held, |data|, deal), s.last.Some?, deal.ctxEnded)
  }

  function Turn(data: seq<Byte>, s: State, deal: Deal): State {
    if s.result.Some? then s
    else if s.last.None? then Exchange(data, s, PutBytes(data, s.offset), deal)
    else if s.failures + 1 > RECONNECT_BUDGET then s.(result := Some(GaveUp(s.last.value)))
    else if deal.ctxEnded then s.(result := Some(ContextEnded))       // the backoff sleep is cut short
    else Exchange(data, s.(failures := s.failures + 1), Ask(|data|), deal)
  }

  // The state after n turns against the storage `deals` describes.
  function Run(data: seq<Byte>, deals: nat -> Deal, n: nat): State {
    if n == 0 then Start else Turn(data, Run(data, deals, n - 1), deals(n - 1))
  }

  // ---------------------------------------------------------------- safety, for every storage

  // A request says exactly which bytes of the source it carries.
  predicate Faithful(data: seq<Byte>, sent: Sent) {
    match sent.put
    case Whole => data == []
    case Ask(total) => total == |data|
    case Send(first, last, total, body) =>
      first == sent.offset < total == |data| && last == total - 1 && body == data[first..]
  }

  // Storage holds a prefix, a send starts where that prefix ends, and success means all of it.
  predicate Sound(data: seq<Byte>, s: State) {
    && s.held <= data
    && s.offset <= |data| && s.failures <= RECONNECT_BUDGET
    && (s.last.None? && s.result.None? ==> s.offset == |s.held|)
    && (s.result == Some(Success) ==> s.held == data)
  }

  predicate AllFaithful(data: seq<Byte>, log: seq<Sent>) {
    forall i | 0 <= i < |log| :: Faithful(data, log[i])
  }

  predicate Safe(data: seq<Byte>, s: State) {
    Sound(data, s) && AllFaithful(data, s.log)
  }

  lemma KeepPrefix(data: seq<Byte>, held: seq<Byte>, sent: Sent, deal: Deal)
    requires held <= data && Faithful(data, sent)
    ensures Keep(held, sent.put, deal) <= data
    ensures |held| <= |Keep(held, sent.put, deal)| + Min(deal.forgets, |held|)
  {
    hide Remembered;
    var base := Remembered(held, deal.forgets);
    RememberedPrefix(data, held, deal.forgets);
    if sent.put.Send? {
      var got := if deal.arrive < |sent.put.body| then deal.arrive else |sent.put.body|;
      Continues(data, base, sent.put.first, got);
    }
  }

  lemma RememberedPrefix(data: seq<Byte>, held: seq<Byte>, forgets: nat)
    requires held <= data
    ensures Remembered(held, forgets) <= data && |held| <= |Remembered(held, forgets)| + Min(forgets, |held|)
  {
  }

  // Bytes sent from `first` on, taken from where storage's prefix ends, lengthen the prefix.
  lemma Continues(data: seq<Byte>, base: seq<Byte>, first: nat, got: nat)
    requires base <= data && first + got <= |data|
    ensures first <= |base| < first + got ==> base + data[first..][|base| - first..got] == data[..first + got]
  {
    if first <= |base| < first + got {
      assert data[first..][|base| - first..got] == data[|base|..first + got];
      assert base == data[..|base|];
    }
  }

  // Reading a truthful reply keeps the client's offset sound.
  lemma ReadSafe(data: seq<Byte>, s: State, reply: Reply, asked: bool, ctxEnded: bool)
    requires s.held <= data && s.offset <= |data| && s.failures <= RECONNECT_BUDGET && s.result.None?
    requires reply.Kept? ==> reply.bytes == |s.held|
    requires reply.Saved? ==> |s.held| == |data|
    ensures Sound(data, Read(s, reply, asked, ctxEnded)) && Read(s, reply, asked, ctxEnded).log == s.log
  {
  }

  lemma ExchangeSafe(data: seq<Byte>, s: State, put: Put, deal: Deal)
    requires s.held <= data && s.offset <= |data| && s.failures <= RECONNECT_BUDGET && s.result.None?
    requires Faithful(data, Sent(s.offset, put))
    ensures Sound(data, Exchange(data, s, put, deal))
    ensures Exchange(data, s, put, deal).log == s.log + [Sent(s.offset, put)]
  {
    var s1 := Requested(s, put, deal);
    KeepPrefix(data, s.held, Sent(s.offset, put), deal);
    ReadSafe(data, s1, Respond(s1.held, |data|, deal), s.last.Some?, deal.ctxEnded);
  }

  lemma TurnSafe(data: seq<Byte>, s: State, deal: Deal)
    requires Safe(data, s)
    ensures Safe(data, Turn(data, s, deal))
  {
    hide Exchange;
    if s.result.Some? {
    } else if s.last.None? {
      ExchangeSafe(data, s, PutBytes(data, s.offset), deal);
    } else if s.failures < RECONNECT_BUDGET && !deal.ctxEnded {
      ExchangeSafe(data, s.(failures := s.failures + 1), Ask(|data|), deal);
    }
  }

  // Whatever storage does, cuts, lost answers and forgotten bytes included: it always holds a prefix
  // of the source, every PUT carries data[offset..] under the matching range, a send always starts at
  // exactly what storage holds, and a reported success means storage holds exactly the source.
  lemma {:induction false} AlwaysSafe(data: seq<Byte>, deals: nat -> Deal, n: nat)
    ensures Safe(data, Run(data, deals, n))
  {
    hide Turn;
    if n > 0 {
      AlwaysSafe(data, deals, n - 1);
      TurnSafe(data, Run(data, deals, n - 1), deals(n - 1));
    }
  }

  // The range a data PUT announces parses back to where its body starts and the whole size.
  lemma HeaderNamesBody(data: seq<Byte>, sent: Sent)
    requires Faithful(data, sent) && sent.put.Send? && |data| <= MAX_INT64
    ensures ContentRange(Header(sent.put)) == Some((sent.offset as int, |data| as int))
    ensures sent.put.body == data[sent.offset..]
  {
    RangeRoundTrip(sent.put.first, sent.put.last, Some(sent.put.total));
  }

  // ---------------------------------------------------------------- termination

  // Whether the turn sends a request at all.
  predicate Requests(s: State, deal: Deal) {
    s.result.None? && (s.last.None? || (s.failures + 1 <= RECONNECT_BUDGET && !deal.ctxEnded))
  }

  // Bytes storage forgets in one turn, and in the first n.
  function Forgot(s: State, deal: Deal): nat { if Requests(s, deal) then Min(deal.forgets, |s.held|) else 0 }

  function Lost(data: seq<Byte>, deals: nat -> Deal, n: nat): nat {
    if n == 0 then 0 else Lost(data, deals, n - 1) + Forgot(Run(data, deals, n - 1), deals(n - 1))
  }

  // How far the client's offset moved back, in one turn and in the first n.
  function BackBy(s: State, s': State): nat { if s'.offset < s.offset then s.offset - s'.offset else 0 }

  function Paid(data: seq<Byte>, deals: nat -> Deal, n: nat): nat {
    if n == 0 then 0
    else Paid(data, deals, n - 1) + BackBy(Run(data, deals, n - 1), Run(data, deals, n))
  }

  // PUTs sent while the client's offset was `offset`.
  function PutsAt(log: seq<Sent>, offset: nat): nat {
    if log == [] then 0
    else PutsAt(log[..|log|-1], offset) + if log[|log|-1].offset == offset then 1 else 0
  }

  // How many PUTs the present offset may have cost so far.
  function Spent(s: State): nat { 2 * s.failures + if s.last.Some? then 1 else 0 }

  // The account of PUTs so far, for one offset `o` and in all.
  predicate Bounded(data: seq<Byte>, s: State, o: nat) {
    && (s.result.None? ==> s.offset <= |s.held| && |s.log| <= 11 * s.offset + Spent(s))
    && (s.result.None? && o == s.offset ==> PutsAt(s.log, o) <= Spent(s))
    && (o > s.offset ==> PutsAt(s.log, o) == 0)
    && PutsAt(s.log, o) <= 11
    && |s.log| <= 11 * (|data| + 1)
  }

  // The account of PUTs against storage that may forget: every step back is paid for by bytes lost, and
  // every offset gained or gained again costs at most 11.
  predicate Account(data: seq<Byte>, s: State, paid: nat, lost: nat) {
    && paid <= lost
    && (s.result.None? ==> s.offset + paid <= |s.held| + lost && |s.log| <= 11 * (s.offset + paid) + Spent(s))
    && |s.log| <= 11 * (|data| + 1 + lost)
  }

  lemma ReadAccount(data: seq<Byte>, s: State, reply: Reply, asked: bool, ctxEnded: bool, paid: nat, lost: nat)
    requires |s.held| <= |data| && s.result.None? && asked == s.last.Some? && paid <= lost
    requires reply.Kept? ==> reply.bytes == |s.held|
    requires s.offset + paid <= |s.held| + lost
    requires |s.log| <= 11 * (s.offset + paid) + 2 * s.failures + if asked then 0 else 1
    requires |s.log| <= 11 * (s.offset + paid) + 11
    ensures var s' := Read(s, reply, asked, ctxEnded); Account(data, s', paid + BackBy(s, s'), lost)
  {
  }

  lemma ExchangeAccount(data: seq<Byte>, s: State, put: Put, deal: Deal, paid: nat, lost: nat, spent: nat)
    requires s.held <= data && s.result.None? && Faithful(data, Sent(s.offset, put)) && paid <= lost
    requires s.offset + paid <= |s.held| + lost && |s.log| <= 11 * (s.offset + paid) + spent
    requires spent < 11 && spent + 1 <= 2 * s.failures + if s.last.Some? then 0 else 1
    ensures var s' := Exchange(data, s, put, deal);
      Account(data, s', paid + BackBy(s, s'), lost + Min(deal.forgets, |s.held|))
  {
    hide Account, Read;
    var s1 := Requested(s, put, deal);
    KeepPrefix(data, s.held, Sent(s.offset, put), deal);
    var lost' := lost + Min(deal.forgets, |s.held|);
    ReadAccount(data, s1, Respond(s1.held, |data|, deal), s.last.Some?, deal.ctxEnded, paid, lost');
  }

  lemma TurnAccount(data: seq<Byte>, s: State, deal: Deal, paid: nat, lost: nat)
    requires Sound(data, s) && Account(data, s, paid, lost)
    ensures var s' := Turn(data, s, deal); Account(data, s', paid + BackBy(s, s'), lost + Forgot(s, deal))
  {
    hide Exchange;
    if s.result.Some? {
    } else if s.last.None? {
      ExchangeAccount(data, s, PutBytes(data, s.offset), deal, paid, lost, 2 * s.failures);
    } else if s.failures < RECONNECT_BUDGET && !deal.ctxEnded {
      ExchangeAccount(data, s.(failures := s.failures + 1), Ask(|data|), deal, paid, lost, 2 * s.failures + 1);
    }
  }

  lemma {:induction false} AlwaysAccounted(data: seq<Byte>, deals: nat -> Deal, n: nat)
    ensures Account(data, Run(data, deals, n), Paid(data, deals, n), Lost(data, deals, n))
  {
    hide Turn, Account, Forgot, BackBy;
    if n > 0 {
      AlwaysAccounted(data, deals, n - 1);
      AlwaysSafe(data, deals, n - 1);
      TurnAccount(data, Run(data, deals, n - 1), deals(n - 1), Paid(data, deals, n - 1), Lost(data, deals, n - 1));
    } else {
      NothingSent(data);
    }
  }

  lemma NothingSent(data: seq<Byte>)
    ensures Account(data, Start, 0, 0)
  {
  }

  // Against every storage: the PUTs are bounded by the size and the bytes storage forgot, so an upload
  // still unfinished after n turns has been made to lose that many.
  lemma PutsBounded(data: seq<Byte>, deals: nat -> Deal, n: nat)
    ensures |Run(data, deals, n).log| <= 11 * (|data| + 1 + Lost(data, deals, n))
    ensures Run(data, deals, n).result.None? ==> n <= 11 * (|data| + 1 + Lost(data, deals, n))
  {
    hide Run;
    AlwaysAccounted(data, deals, n);
    Unfinished(data, deals, n);
  }

  lemma {:induction false} Unfinished(data: seq<Byte>, deals: nat -> Deal, n: nat)
    ensures Run(data, deals, n).result.None? ==> |Run(data, deals, n).log| == n
  {
    hide Turn;
    if n > 0 {
      Unfinished(data, deals, n - 1);
      TurnLogs(data, Run(data, deals, n - 1), deals(n - 1));
    }
  }

  lemma {:induction false} LostGrows(data: seq<Byte>, deals: nat -> Deal, m: nat, n: nat)
    requires m <= n
    ensures Lost(data, deals, m) <= Lost(data, deals, n)
    ensures Run(data, deals, m).result.Some? ==> Lost(data, deals, n) == Lost(data, deals, m)
    ensures Run(data, deals, m).result.Some? ==> Run(data, deals, n).result.Some?
    decreases n - m
  {
    if m < n { LostGrows(data, deals, m, n - 1); }
  }

  ghost predicate Ends(data: seq<Byte>, deals: nat -> Deal) {
    exists n: nat :: Run(data, deals, n).result.Some?
  }

  ghost predicate LosesAtMost(data: seq<Byte>, deals: nat -> Deal, bound: nat) {
    forall n: nat :: Lost(data, deals, n) <= bound
  }

  // An upload ends if and only if storage forgets boundedly many bytes of it.
  lemma EndsExactly(data: seq<Byte>, deals: nat -> Deal)
    ensures Ends(data, deals) <==> exists bound: nat :: LosesAtMost(data, deals, bound)
  {
    hide Run, Lost;
    if Ends(data, deals) {
      var n: nat :| Run(data, deals, n).result.Some?;
      forall m: nat ensures Lost(data, deals, m) <= Lost(data, deals, n) {
        LostGrows(data, deals, if m <= n then m else n, if m <= n then n else m);
      }
      assert LosesAtMost(data, deals, Lost(data, deals, n));
    }
    if exists bound: nat :: LosesAtMost(data, deals, bound) {
      var bound: nat :| LosesAtMost(data, deals, bound);
      var n := 11 * (|data| + 1 + bound) + 1;
      PutsBounded(data, deals, n);
      assert Lost(data, deals, n) <= bound;
      assert Run(data, deals, n).result.Some?;
    }
  }

  lemma OneMorePut(log: seq<Sent>, sent: Sent, o: nat)
    ensures PutsAt(log + [sent], o) == PutsAt(log, o) + if o == sent.offset then 1 else 0
  {
    assert (log + [sent])[..|log|] == log;
  }

  // One request and its reply: the offset grows and starts a fresh account, or the same account is
  // charged once.
  lemma ExchangeBounded(data: seq<Byte>, s: State, put: Put, deal: Deal, o: nat, spent: nat)
    requires s.held <= data && s.offset <= |data| && s.result.None? && Min(deal.forgets, |s.held|) == 0
    requires Faithful(data, Sent(s.offset, put))
    requires s.offset <= |s.held| && |s.log| <= 11 * s.offset + spent
    requires spent < 11 && spent + 1 <= 2 * s.failures + if s.last.Some? then 0 else 1
    requires PutsAt(s.log, o) <= (if o > s.offset then 0 else if o == s.offset then spent else 11)
    ensures Bounded(data, Exchange(data, s, put, deal), o)
  {
    var s1 := Requested(s, put, deal);
    KeepPrefix(data, s.held, Sent(s.offset, put), deal);
    OneMorePut(s.log, Sent(s.offset, put), o);
    ReadBounded(data, s1, Respond(s1.held, |data|, deal), s.last.Some?, deal.ctxEnded, o);
  }

  lemma ReadBounded(data: seq<Byte>, s: State, reply: Reply, asked: bool, ctxEnded: bool, o: nat)
    requires s.offset <= |s.held| <= |data| && s.result.None? && asked == s.last.Some?
    requires reply.Kept? ==> reply.bytes == |s.held|
    requires PutsAt(s.log, o) <= (if o > s.offset then 0 else 11)
    requires o == s.offset ==> PutsAt(s.log, o) <= 2 * s.failures + if asked then 0 else 1
    requires |s.log| <= 11 * s.offset + 2 * s.failures + if asked then 0 else 1
    requires |s.log| <= 11 * s.offset + 11
    ensures Bounded(data, Read(s, reply, asked, ctxEnded), o)
  {
  }

  lemma TurnBounded(data: seq<Byte>, s: State, deal: Deal, o: nat)
    requires Sound(data, s) && Bounded(data, s, o) && Forgot(s, deal) == 0
    ensures Bounded(data, Turn(data, s, deal), o)
  {
    hide Exchange, PutsAt;
    if s.result.Some? {
    } else if s.last.None? {
      ExchangeBounded(data, s, PutBytes(data, s.offset), deal, o, 2 * s.failures);
    } else if s.failures < RECONNECT_BUDGET && !deal.ctxEnded {
      ExchangeBounded(data, s.(failures := s.failures + 1), Ask(|data|), deal, o, 2 * s.failures + 1);
    }
  }

  // A turn without a result logs exactly one PUT.
  lemma TurnLogs(data: seq<Byte>, s: State, deal: Deal)
    ensures Turn(data, s, deal).result.None? ==> s.result.None? && |Turn(data, s, deal).log| == |s.log| + 1
  {
  }

  lemma {:induction false} AlwaysBounded(data: seq<Byte>, deals: nat -> Deal, n: nat, o: nat)
    requires Lost(data, deals, n) == 0
    ensures Bounded(data, Run(data, deals, n), o)
  {
    hide Turn, Bounded;
    if n > 0 {
      var s := Run(data, deals, n - 1);
      AlwaysBounded(data, deals, n - 1, o);
      AlwaysSafe(data, deals, n - 1);
      TurnBounded(data, s, deals(n - 1), o);
    } else {
      NothingAt(data, o);
    }
  }

  lemma NothingAt(data: seq<Byte>, o: nat)
    ensures Bounded(data, Start, o)
  {
  }

  // While storage has forgotten nothing: at most 11 PUTs per offset, at most 11 * (size + 1) in all, and
  // a result by then.
  lemma Terminates(data: seq<Byte>, deals: nat -> Deal, n: nat, offset: nat)
    requires Lost(data, deals, n) == 0
    ensures PutsAt(Run(data, deals, n).log, offset) <= 11
    ensures |Run(data, deals, n).log| <= 11 * (|data| + 1)
    ensures n > 11 * (|data| + 1) ==> Run(data, deals, n).result.Some?
  {
    AlwaysBounded(data, deals, n, offset);
    PutsBounded(data, deals, n);
  }

  // Storage that takes one byte, forgets it, drops the connection, and says it kept nothing.
  function Forgetful(i: nat): Deal {
    if i % 3 == 0 then Deal(0, 1, Replies(false), false)
    else if i % 3 == 1 then Deal(1, 0, Fails(Connection), false)
    else Deal(0, 0, Replies(false), false)
  }

  // Against it an upload of two bytes or more never ends, so it forgets without bound.
  lemma {:induction false} ForgetfulNeverEnds(data: seq<Byte>, n: nat)
    requires 2 <= |data|
    ensures Cycling(data, Run(data, Forgetful, n), n)
    ensures Run(data, Forgetful, n).result.None? && |Run(data, Forgetful, n).log| == n
  {
    hide Turn, Forgetful;
    if n > 0 {
      ForgetfulNeverEnds(data, n - 1);
      ForgetfulTurn(data, Run(data, Forgetful, n - 1), n - 1);
    }
  }

  // Where the forgetful cycle stands before turn i.
  predicate Cycling(data: seq<Byte>, s: State, i: nat)
    requires |data| >= 2
  {
    && s.result.None? && s.failures <= 1
    && (if i % 3 == 1 then s.offset == 1 && s.last.None? && s.held == data[..1] && s.failures == 0
        else if i % 3 == 2 then s.offset == 1 && s.last.Some? && s.held == [] && s.failures == 0
        else s.offset == 0 && s.last.None? && s.held == [])
  }

  lemma ForgetfulTurn(data: seq<Byte>, s: State, i: nat)
    requires 2 <= |data| && Cycling(data, s, i)
    ensures Cycling(data, Turn(data, s, Forgetful(i)), i + 1)
    ensures |Turn(data, s, Forgetful(i)).log| == |s.log| + 1
  {
    var deal := Forgetful(i);
    var asked := s.last.Some?;
    var s0 := if asked then s.(failures := s.failures + 1) else s;
    var put := if asked then Ask(|data|) else PutBytes(data, s.offset);
    var s1 := Requested(s0, put, deal);
    if i % 3 == 0 { assert s1.held == data[..1]; } else { assert s1.held == []; }
  }

  // ---------------------------------------------------------------- what a result means

  // Storage's answer to the request of turn n, counted from 0.
  function AnswerAt(data: seq<Byte>, deals: nat -> Deal, n: nat): Reply {
    Respond(Run(data, deals, n + 1).held, |data|, deals(n))
  }

  // Questions in a row, up to turn n, while storage reported nothing beyond the client's offset.
  function Stalls(data: seq<Byte>, deals: nat -> Deal, n: nat): nat {
    if n == 0 || Run(data, deals, n).offset > Run(data, deals, n - 1).offset then 0
    else
      var asks := Run(data, deals, n - 1).last.Some? && Requests(Run(data, deals, n - 1), deals(n - 1));
      Stalls(data, deals, n - 1) + if asks then 1 else 0
  }

  lemma {:induction false} StallsCounted(data: seq<Byte>, deals: nat -> Deal, n: nat)
    ensures Run(data, deals, n).result.None? ==> Run(data, deals, n).failures == Stalls(data, deals, n)
  {
    hide Turn;
    if n > 0 {
      StallsCounted(data, deals, n - 1);
      TurnStalls(data, Run(data, deals, n - 1), deals(n - 1));
    }
  }

  lemma TurnStalls(data: seq<Byte>, s: State, deal: Deal)
    ensures var s' := Turn(data, s, deal);
      s'.result.None? ==>
        && s.result.None? && Requests(s, deal)
        && s'.failures == if s'.offset > s.offset then 0 else s.failures + if s.last.Some? then 1 else 0
  {
  }

  // Why a turn ends the upload. A request was sent: storage answered with the finished object, or with an
  // error that is not resumed. None was sent: the last one failed or moved nothing, and either the budget
  // of questions in a row that moved nothing is spent or the caller's context has ended.
  ghost predicate Explains(data: seq<Byte>, deals: nat -> Deal, n: nat, result: Option<Result>) {
    var s, deal := Run(data, deals, n), deals(n);
    if Requests(s, deal) then
      var answer := AnswerAt(data, deals, n);
      && (result == Some(Success) <==> answer.Saved?)
      && (forall f :: result == Some(Refused(f)) <==> answer == Error(f) && !Resumable(f, deal.ctxEnded))
      && (result.Some? ==> result.value.Success? || result.value.Refused?)
    else
      && s.last.Some?
      && (result == Some(GaveUp(s.last.value)) || result == Some(ContextEnded))
      && (result == Some(GaveUp(s.last.value)) <==> Stalls(data, deals, n) == RECONNECT_BUDGET)
      && (result == Some(ContextEnded) ==> deal.ctxEnded)
  }

  lemma ResultExplained(data: seq<Byte>, deals: nat -> Deal, n: nat)
    requires Run(data, deals, n).result.None?
    ensures Explains(data, deals, n, Run(data, deals, n + 1).result)
  {
    hide Run, Stalls, Keep, Respond, PutBytes;
    StallsCounted(data, deals, n);
    AlwaysSafe(data, deals, n);
    OneTurn(data, deals, n);
  }

  lemma OneTurn(data: seq<Byte>, deals: nat -> Deal, n: nat)
    ensures Run(data, deals, n + 1) == Turn(data, Run(data, deals, n), deals(n))
  {
  }

  // What a turn sends: the question after trouble, and otherwise the rest of the source, a plain PUT if the
  // source is empty, or the question if there is no rest.
  lemma TurnSends(data: seq<Byte>, deals: nat -> Deal, n: nat)
    requires Requests(Run(data, deals, n), deals(n))
    ensures var s := Run(data, deals, n);
      Run(data, deals, n + 1).log == s.log + [Sent(s.offset,
        if s.last.Some? then Ask(|data|)
        else if data == [] then Whole
        else if s.offset < |data| then Send(s.offset, |data| - 1, |data|, data[s.offset..])
        else Ask(|data|))]
  {
    hide Run, Keep, Respond;
    OneTurn(data, deals, n);
  }

  // Why the client asks or gives up at all: the last request was answered by an error worth resuming, or
  // by storage reporting no more than the client had sent it.
  lemma Trouble(data: seq<Byte>, deals: nat -> Deal, n: nat)
    requires Run(data, deals, n + 1).result.None? && Run(data, deals, n + 1).last.Some?
    ensures var answer := AnswerAt(data, deals, n);
      || (answer == Error(Run(data, deals, n + 1).last.value) && Resumable(answer.fault, deals(n).ctxEnded))
      || (answer.Kept? && answer.bytes <= Run(data, deals, n).offset && Run(data, deals, n).last.None?)
  {
    hide Run, Keep, Respond, PutBytes;
    OneTurn(data, deals, n);
  }

  // A turn in which storage works: everything sent arrives, nothing is forgotten, the answer comes.
  predicate Works(data: seq<Byte>, deal: Deal) {
    deal.forgets == 0 && deal.arrive >= |data| && deal.answer == Replies(true) && !deal.ctxEnded
  }

  // Two such turns in a row finish any upload that is not over and has budget left.
  lemma Recovers(data: seq<Byte>, deals: nat -> Deal, n: nat)
    requires var s := Run(data, deals, n); s.result.None? && (s.last.None? || s.failures < RECONNECT_BUDGET)
    requires Works(data, deals(n)) && Works(data, deals(n + 1))
    ensures Run(data, deals, n + 2).result == Some(Success) && Run(data, deals, n + 2).held == data
  {
    hide Run, Turn;
    AlwaysSafe(data, deals, n);
    AlwaysSafe(data, deals, n + 1);
    AlwaysSafe(data, deals, n + 2);
    OneTurn(data, deals, n);
    OneTurn(data, deals, n + 1);
    var s := Run(data, deals, n);
    if s.last.None? {
      SendFinishes(data, s, deals(n));
      Over(data, Run(data, deals, n + 1), deals(n + 1));
    } else {
      AskSettles(data, s, deals(n));
      var s1 := Run(data, deals, n + 1);
      if s1.result.None? { SendFinishes(data, s1, deals(n + 1)); } else { Over(data, s1, deals(n + 1)); }
    }
  }

  lemma Over(data: seq<Byte>, s: State, deal: Deal)
    requires s.result.Some?
    ensures Turn(data, s, deal) == s
  {
  }

  lemma SendFinishes(data: seq<Byte>, s: State, deal: Deal)
    requires Safe(data, s) && s.result.None? && s.last.None? && Works(data, deal)
    ensures Turn(data, s, deal).result == Some(Success)
  {
    hide AllFaithful;
    assert s.held == data[..|s.held|];
    var put := PutBytes(data, s.offset);
    assert |Keep(s.held, put, deal)| == |data|;
  }

  lemma AskSettles(data: seq<Byte>, s: State, deal: Deal)
    requires Safe(data, s) && s.result.None? && s.last.Some? && s.failures < RECONNECT_BUDGET && Works(data, deal)
    ensures var s' := Turn(data, s, deal);
      s'.result == Some(Success) || (s'.result.None? && s'.last.None?)
  {
    hide AllFaithful;
  }

  // ---------------------------------------------------------------- the loop itself

  // sendUpload, followed for at most `follow` turns of its loop: safe against any storage, and over
  // within 11 PUTs for each byte, one more, and each byte storage forgot.
  method SendUpload(data: seq<Byte>, deals: nat -> Deal, follow: nat)
    returns (result: Option<Result>, held: seq<Byte>, log: seq<Sent>, turns: nat)
    requires |data| <= MAX_INT64
    ensures var s := Run(data, deals, turns); s.result == result && s.held == held && s.log == log
    ensures turns <= follow && (result.None? ==> turns == follow)
    ensures held <= data && (result == Some(Success) ==> held == data) && AllFaithful(data, log)
    ensures result.Some? ==> turns > 0 && Explains(data, deals, turns - 1, result)
    ensures |log| <= 11 * (|data| + 1 + Lost(data, deals, turns))
    ensures follow > 11 * (|data| + 1 + Lost(data, deals, follow)) ==> result.Some?
  {
    hide Run, Lost, AllFaithful, Explains;
    result, held, log, turns := SendLoop(data, deals, follow);
    AlwaysSafe(data, deals, turns);
    PutsBounded(data, deals, turns);
    if result.Some? { ResultExplained(data, deals, turns - 1); }
  }

  lemma OffsetWithin(data: seq<Byte>, deals: nat -> Deal, n: nat)
    ensures Run(data, deals, n).offset <= |data|
  {
    AlwaysSafe(data, deals, n);
  }

  // The loop goes through the specification's states.
  method SendLoop(data: seq<Byte>, deals: nat -> Deal, follow: nat)
    returns (result: Option<Result>, held: seq<Byte>, log: seq<Sent>, turns: nat)
    requires |data| <= MAX_INT64
    ensures var s := Run(data, deals, turns); s.result == result && s.held == held && s.log == log
    ensures turns <= follow && (result.None? ==> turns == follow)
    ensures result.Some? ==> turns > 0 && Run(data, deals, turns - 1).result.None?
  {
    hide Keep, Respond, PutBytes, KeptBytes, KeptHeader;
    var offset: nat, failures: nat, last: Option<Fault> := 0, 0, None;
    held, log, turns := [], [], 0;
    while turns < follow
      invariant turns <= follow
      invariant Run(data, deals, turns) == State(held, offset, last, failures, log, None)
      invariant offset <= |data|
    {
      var deal := deals(turns);
      OffsetWithin(data, deals, turns + 1);
      turns := turns + 1;
      var put;
      if last.None? {
        put := PutBytes(data, offset);
      } else {
        failures := failures + 1;
        if failures > RECONNECT_BUDGET { return Some(GaveUp(last.value)), held, log, turns; }
        if deal.ctxEnded { return Some(ContextEnded), held, log, turns; }
        put := Ask(|data|);
      }
      log := log + [Sent(offset, put)];
      held := Keep(held, put, deal);
      var reply := Respond(held, |data|, deal);
      match reply {
        case Error(f) =>
          if !Resumable(f, deal.ctxEnded) { return Some(Refused(f)), held, log, turns; }
          last := Some(f);
        case Saved => return Some(Success), held, log, turns;
        case Kept(bytes) =>
          KeptRoundTrip(bytes);
          var n := KeptBytes(KeptHeader(bytes));
          if n > offset {
            offset, failures, last := n, 0, None;
          } else if last.None? {
            last := Some(Other);
          } else {
            offset, last := n, None;
          }
      }
    }
    result := None;
  }
}
