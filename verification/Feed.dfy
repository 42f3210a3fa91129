// The resuming event feed (internal/coordinator/stream.go): one typed feed over any number of
// connections, each cut at any byte, resumed from the last id seen.
module Feed {
  import opened Common
  import opened Sse

  // ---------------------------------------------------------------- the server

  // The journal gives every event an id of its own.
  ghost predicate Journal(journal: seq<Frame>) {
    && (forall i | 0 <= i < |journal| :: journal[i].id != "")
    && (forall i, j | 0 <= i < j < |journal| :: journal[i].id != journal[j].id)
  }

  // `cursor` stands after the first `pos` events.
  ghost predicate Stands(journal: seq<Frame>, cursor: string, pos: nat) {
    pos <= |journal| && cursor == if pos == 0 then "" else journal[pos - 1].id
  }

  // `cursor` stands after the first `pos` events and nowhere else.
  ghost predicate Locates(journal: seq<Frame>, cursor: string, pos: nat) {
    Stands(journal, cursor, pos) && forall p: nat | Stands(journal, cursor, p) :: p == pos
  }

  lemma StandsOnce(journal: seq<Frame>, cursor: string, pos: nat)
    requires Journal(journal) && Stands(journal, cursor, pos)
    ensures Locates(journal, cursor, pos) && pos <= |journal|
  {
  }

  // An open either fails, for good or for now, or streams bytes up to a cut.
  datatype Open = Fails(reconnectable: bool) | Streams(lines: seq<WireLine>, cut: nat)

  function Received(o: Open): string
    requires o.Streams?
  {
    if o.cut < |Wire(o.lines)| then Wire(o.lines)[..o.cut] else Wire(o.lines)
  }

  // A frame that yields an event: it has data, and the data decodes.
  predicate Yields<T>(f: Frame, decode: Frame -> Option<T>) { f.data != "" && decode(f).Some? }

  // The frames that carry an id.
  function Noted(frames: seq<Frame>): seq<Frame> {
    if frames == [] then []
    else
      var before, f := Noted(frames[..|frames|-1]), frames[|frames|-1];
      if f.id != "" then before + [f] else before
  }

  // Every event has an id: a frame without one is a keepalive or does not decode.
  ghost predicate EventsNoted<T>(frames: seq<Frame>, decode: Frame -> Option<T>) {
    forall i | 0 <= i < |frames| && frames[i].id == "" :: !Yields(frames[i], decode)
  }

  // Answering Last-Event-ID: the frames with an id are every event after the cursor, in order. How
  // fields are laid out, which other fields, comments and frames without an id come between, how each
  // line is ended, and where the connection is cut, is up to the server and the network.
  ghost predicate Replays<T>(journal: seq<Frame>, cursor: string, decode: Frame -> Option<T>, o: Open) {
    forall pos: nat | Stands(journal, cursor, pos) :: o.Streams? ==>
      var frames := FramesOfLines(Empty, Texts(o.lines));
      AllClean(o.lines) && Noted(frames) == journal[pos..] && EventsNoted(frames, decode)
  }

  ghost predicate Server<T>(journal: seq<Frame>, decode: Frame -> Option<T>, serve: (nat, string) -> Open) {
    Journal(journal) && forall n, c :: Replays(journal, c, decode, serve(n, c))
  }

  // A connection that is not cut short and never trips the framer's cap.
  ghost predicate Whole(o: Open, cap: nat) {
    o.Streams? && o.cut >= |Wire(o.lines)| && Fits(o.lines, cap, Empty, 0)
  }

  ghost predicate WholeAt(serve: (nat, string) -> Open, n: nat, cap: nat) {
    forall c :: Whole(serve(n, c), cap)
  }

  // ---------------------------------------------------------------- what the caller should see

  // The events of some frames: those with data that decode.
  function Events<T>(frames: seq<Frame>, decode: Frame -> Option<T>): seq<T> {
    if frames == [] then []
    else
      var before, f := Events(frames[..|frames|-1], decode), frames[|frames|-1];
      if Yields(f, decode) then before + [decode(f).value] else before
  }

  lemma {:induction false} EventsAppend<T>(a: seq<Frame>, b: seq<Frame>, decode: Frame -> Option<T>)
    ensures Events(a + b, decode) == Events(a, decode) + Events(b, decode)
  {
    if b == [] {
      assert a + b == a;
    } else {
      assert (a + b)[..|a + b|-1] == a + b[..|b|-1];
      EventsAppend(a, b[..|b|-1], decode);
    }
  }

  // Connections in a row, up to the last, that delivered no event.
  function Streak(progress: seq<bool>): nat {
    if progress == [] || progress[|progress|-1] then 0 else 1 + Streak(progress[..|progress|-1])
  }

  datatype Outcome =
    | Following       // the run is followed no further
    | Finished        // the caller stopped, or the feed's terminal event was delivered
    | Cancelled | Refused | Lost

  // The feed went on after each of these events: the caller wanted more and none was terminal.
  ghost predicate WentOn<T>(events: seq<T>, halts: (nat, T) -> bool) {
    forall i | 0 <= i < |events| :: !halts(i, events[i])
  }

  ghost predicate HaltedAtLast<T>(events: seq<T>, halts: (nat, T) -> bool) {
    events != [] && halts(|events| - 1, events[|events|-1]) && WentOn(events[..|events|-1], halts)
  }

  // ---------------------------------------------------------------- one connection

  lemma {:induction false} NotedPrefix(frames: seq<Frame>, i: nat)
    requires i <= |frames|
    ensures Noted(frames[..i]) <= Noted(frames)
  {
    if i == |frames| {
      assert frames[..i] == frames;
    } else {
      assert frames[..|frames|-1][..i] == frames[..i];
      NotedPrefix(frames[..|frames|-1], i);
    }
  }

  // The frames of a connection, those with an id being the journal's next ones.
  ghost predicate Sends<T>(journal: seq<Frame>, pos: nat, frames: seq<Frame>, decode: Frame -> Option<T>) {
    pos <= |journal| && Noted(frames) <= journal[pos..] && EventsNoted(frames, decode)
  }

  // How many of the first i frames carry an id.
  function Count(frames: seq<Frame>, i: nat): nat
    requires i <= |frames|
  {
    |Noted(frames[..i])|
  }

  // The i-th frame of a connection is the journal's next one and moves the cursor past itself, or it has
  // no id and yields nothing.
  lemma NextFrame<T>(journal: seq<Frame>, pos: nat, frames: seq<Frame>, i: nat, decode: Frame -> Option<T>)
    requires Journal(journal) && Sends(journal, pos, frames, decode) && i < |frames|
    ensures var n, f := pos + Count(frames, i), frames[i];
      && n <= |journal|
      && (f.id == "" ==> Count(frames, i + 1) == Count(frames, i) && !Yields(f, decode))
      && (f.id != "" ==>
            && Count(frames, i + 1) == Count(frames, i) + 1
            && n < |journal| && Stands(journal, f.id, n + 1)
            && Events(journal[pos..n + 1], decode) ==
               Events(journal[pos..n], decode) + if Yields(f, decode) then [decode(f).value] else [])
  {
    hide Yields;
    NotedPrefix(frames, i);
    NotedPrefix(frames, i + 1);
    assert frames[..i + 1][..i] == frames[..i];
    var n := pos + Count(frames, i);
    if frames[i].id != "" {
      assert Noted(frames[..i + 1])[n - pos] == frames[i];
      assert frames[i] == journal[pos..][n - pos] == journal[n];
      assert journal[pos..n + 1][..n - pos] == journal[pos..n];
    }
  }

  lemma AllCounted<T>(journal: seq<Frame>, pos: nat, frames: seq<Frame>, decode: Frame -> Option<T>)
    requires Sends(journal, pos, frames, decode)
    ensures Count(frames, 0) == 0 && Count(frames, |frames|) == |Noted(frames)|
    ensures pos + |Noted(frames)| <= |journal|
  {
    assert frames[..|frames|] == frames;
  }

  lemma OneEvent<T>(events: seq<T>, event: T, halts: (nat, T) -> bool)
    requires WentOn(events, halts)
    ensures if halts(|events|, event) then HaltedAtLast(events + [event], halts) else WentOn(events + [event], halts)
  {
    assert (events + [event])[..|events|] == events;
  }

  lemma NoEvents<T>(journal: seq<Frame>, pos: nat, decode: Frame -> Option<T>)
    requires pos <= |journal|
    ensures Events(journal[pos..pos], decode) == []
  {
  }

  // The cursor after some frames: the last id among them.
  function LastId(frames: seq<Frame>, cursor: string): string {
    if frames == [] then cursor
    else if frames[|frames|-1].id != "" then frames[|frames|-1].id
    else LastId(frames[..|frames|-1], cursor)
  }

  lemma NothingRead<T>(frames: seq<Frame>, cursor: string, decode: Frame -> Option<T>)
    ensures Events(frames[..0], decode) == [] && LastId(frames[..0], cursor) == cursor
  {
  }

  lemma ReadOne<T>(frames: seq<Frame>, i: nat, cursor: string, decode: Frame -> Option<T>)
    requires i < |frames|
    ensures Events(frames[..i + 1], decode) ==
      Events(frames[..i], decode) + if Yields(frames[i], decode) then [decode(frames[i]).value] else []
    ensures LastId(frames[..i + 1], cursor) ==
      if frames[i].id != "" then frames[i].id else LastId(frames[..i], cursor)
  {
    assert frames[..i + 1][..i] == frames[..i];
  }

  // pumpFrames: yield the events of one connection's frames after those `sofar`, moving the cursor past
  // every frame with an id. `seen` counts those. `halts` says at which event the caller breaks, or that
  // it is the terminal one.
  method PumpFrames<T>(frames: seq<Frame>, cursor: string, decode: Frame -> Option<T>, halts: (nat, T) -> bool,
                       sofar: seq<T>, ghost journal: seq<Frame>, ghost pos: nat)
    returns (yielded: seq<T>, cursor': string, finished: bool, seen: nat)
    requires Journal(journal) && Stands(journal, cursor, pos) && Sends(journal, pos, frames, decode)
    requires WentOn(sofar, halts)
    ensures Stands(journal, cursor', pos + seen)
    ensures yielded == sofar + Events(journal[pos..pos + seen], decode)
    ensures if finished then HaltedAtLast(yielded, halts) else WentOn(yielded, halts) && seen == |Noted(frames)|
    ensures !finished ==> yielded == sofar + Events(frames, decode) && cursor' == LastId(frames, cursor)
  {
    hide Events, WentOn, HaltedAtLast, Journal, Stands, Sends, Count, LastId;
    NothingRead(frames, cursor, decode);
    yielded, cursor' := sofar, cursor;
    seen := 0;
    AllCounted(journal, pos, frames, decode);
    NoEvents(journal, pos, decode);
    for i := 0 to |frames|
      invariant seen == Count(frames, i) && pos + seen <= |journal| && Stands(journal, cursor', pos + seen)
      invariant yielded == sofar + Events(journal[pos..pos + seen], decode)
      invariant WentOn(yielded, halts)
      invariant yielded == sofar + Events(frames[..i], decode) && cursor' == LastId(frames[..i], cursor)
    {
      var f := frames[i];
      ReadOne(frames, i, cursor, decode);
      NextFrame(journal, pos, frames, i, decode);
      if f.id != "" { cursor', seen := f.id, seen + 1; }
      if f.data == "" { continue; }
      var event := decode(f);
      if event.None? { continue; }
      OneEvent(yielded, event.value, halts);
      yielded := yielded + [event.value];
      if halts(|yielded| - 1, event.value) { return yielded, cursor', true, seen; }
    }
    assert frames[..|frames|] == frames;
    finished := false;
  }

  // The frames a connection yields are the next ones of the journal, and all of them if it is whole.
  lemma ConnectionFrames<T>(journal: seq<Frame>, cursor: string, pos: nat, o: Open, decode: Frame -> Option<T>,
                            cap: nat)
    requires Replays(journal, cursor, decode, o) && Stands(journal, cursor, pos) && o.Streams?
    ensures Sends(journal, pos, Parse(Received(o), cap, Empty, 0).frames, decode)
    ensures Whole(o, cap) ==> Noted(Parse(Received(o), cap, Empty, 0).frames) == journal[pos..]
  {
    hide Parse, Sends, Noted, EventsNoted, FramesOfLines, Fits;
    var wire, all := Wire(o.lines), FramesOfLines(Empty, Texts(o.lines));
    assert wire[..|wire|] == wire;
    CutMeans(o.lines, cap, Min(o.cut, |wire|));
    SendsFirst(journal, pos, all, Parse(Received(o), cap, Empty, 0).frames, decode);
    if Whole(o, cap) { WireMeans(o.lines, cap, Empty, 0); }
  }

  lemma SendsFirst<T>(journal: seq<Frame>, pos: nat, all: seq<Frame>, frames: seq<Frame>, decode: Frame -> Option<T>)
    requires pos <= |journal| && Noted(all) == journal[pos..] && EventsNoted(all, decode) && frames <= all
    ensures Sends(journal, pos, frames, decode)
  {
    hide Noted, Yields;
    assert frames == all[..|frames|];
    NotedPrefix(all, |frames|);
  }

  // Where the next open resumes after this one, and whether this one brings an event.
  function Resume(open: Open, cap: nat, cursor: string): string {
    if open.Streams? then LastId(Parse(Received(open), cap, Empty, 0).frames, cursor) else cursor
  }

  predicate Brings<T>(open: Open, cap: nat, decode: Frame -> Option<T>) {
    open.Streams? && |Events(Parse(Received(open), cap, Empty, 0).frames, decode)| > 0
  }

  // One established stream, from the framer to the caller.
  method Follow<T>(open: Open, cap: nat, cursor: string, decode: Frame -> Option<T>, halts: (nat, T) -> bool,
                   sofar: seq<T>, ghost journal: seq<Frame>, ghost from: nat, ghost pos: nat)
    returns (yielded: seq<T>, cursor': string, finished: bool, seen: nat)
    requires Journal(journal) && Stands(journal, cursor, pos) && from <= pos
    requires open.Streams? && Replays(journal, cursor, decode, open)
    requires sofar == Events(journal[from..pos], decode) && WentOn(sofar, halts)
    ensures pos + seen <= |journal| && Stands(journal, cursor', pos + seen)
    ensures yielded == Events(journal[from..pos + seen], decode)
    ensures if finished then HaltedAtLast(yielded, halts) else WentOn(yielded, halts)
    ensures !finished && Whole(open, cap) ==> pos + seen == |journal|
    ensures !finished ==> cursor' == Resume(open, cap, cursor) && (|yielded| > |sofar| <==> Brings(open, cap, decode))
  {
    hide Parse, Replays, Received, Whole, Journal, Events, WentOn, HaltedAtLast, Sends, LastId;
    ConnectionFrames(journal, cursor, pos, open, decode, cap);
    var frames, tooBig := FramesWithCap(Received(open), cap);
    yielded, cursor', finished, seen := PumpFrames(frames, cursor, decode, halts, sofar, journal, pos);
    EventsAppend(journal[from..pos], journal[pos..pos + seen], decode);
    assert journal[from..pos] + journal[pos..pos + seen] == journal[from..pos + seen];
  }

  // ---------------------------------------------------------------- the feed

  // The reconnect budget charged so far.
  function Charged(progress: seq<bool>): nat {
    if Streak(progress) == |progress| then |progress| else Streak(progress) + 1
  }

  lemma {:induction false} OneMore(progress: seq<bool>, delivered: bool)
    ensures Streak(progress) <= |progress|
    ensures Streak(progress + [delivered]) == if delivered then 0 else Streak(progress) + 1
    ensures Charged(progress + [delivered]) == if delivered then 1 else Charged(progress) + 1
  {
    assert (progress + [delivered])[..|progress|] == progress;
    if progress != [] {
      var before, last := progress[..|progress|-1], progress[|progress|-1];
      OneMore(before, last);
      assert before + [last] == progress;
    }
  }

  // Where the feed resumes at its n-th open.
  function Cursor(serve: (nat, string) -> Open, cap: nat, start: string, n: nat): string {
    if n == 0 then start
    else
      var before := Cursor(serve, cap, start, n - 1);
      Resume(serve(n - 1, before), cap, before)
  }

  // The first n entries of `progress` say which connections brought an event.
  ghost predicate Tracks<T>(serve: (nat, string) -> Open, cap: nat, start: string, decode: Frame -> Option<T>,
                            progress: seq<bool>, n: int) {
    n <= |progress| &&
    forall i | 0 <= i < n :: progress[i] <==> Brings(serve(i, Cursor(serve, cap, start, i)), cap, decode)
  }

  lemma Untracked<T>(serve: (nat, string) -> Open, cap: nat, start: string, decode: Frame -> Option<T>)
    ensures Tracks(serve, cap, start, decode, [], 0) && Cursor(serve, cap, start, 0) == start
  {
  }

  lemma TracksOne<T>(serve: (nat, string) -> Open, cap: nat, start: string, decode: Frame -> Option<T>,
                     progress: seq<bool>, delivered: bool)
    requires Tracks(serve, cap, start, decode, progress, |progress|)
    ensures Tracks(serve, cap, start, decode, progress + [delivered], |progress|)
    ensures var open := serve(|progress|, Cursor(serve, cap, start, |progress|));
      delivered == Brings(open, cap, decode) ==>
        Tracks(serve, cap, start, decode, progress + [delivered], |progress| + 1)
  {
    hide Brings, Cursor;
  }

  lemma CursorNext(serve: (nat, string) -> Open, cap: nat, start: string, n: nat)
    ensures var before := Cursor(serve, cap, start, n);
      Cursor(serve, cap, start, n + 1) == Resume(serve(n, before), cap, before)
  {
    hide Resume;
  }

  lemma FailedOpen<T>(open: Open, cap: nat, cursor: string, decode: Frame -> Option<T>)
    requires open.Fails?
    ensures Resume(open, cap, cursor) == cursor && !Brings(open, cap, decode)
  {
  }

  // The n-th open, resumed after `asked`, does not end the feed: it was established or failed for now, and
  // neither the caller's context nor the wait before the next one ended.
  ghost predicate GoesOn(serve: (nat, string) -> Open, ctxEnded: nat -> bool, waitCut: nat -> bool, n: nat,
                         asked: string) {
    !ctxEnded(n) && !waitCut(n) && serve(n, asked) != Fails(false)
  }

  // Refused exactly if the last open failed for good, the context not having ended; cancelled only if the
  // context ended at the last open or in the wait after it; otherwise every open so far let the feed go on.
  ghost predicate Ended(serve: (nat, string) -> Open, ctxEnded: nat -> bool, waitCut: nat -> bool, opens: nat,
                        asked: string, outcome: Outcome) {
    && (outcome.Refused? <==>
          opens > 0 && serve(opens - 1, asked) == Fails(false) && !ctxEnded(opens - 1))
    && (outcome.Cancelled? ==> opens > 0 && (ctxEnded(opens - 1) || waitCut(opens - 1)))
    && (opens > 0 && ctxEnded(opens - 1) ==> outcome.Cancelled? || outcome.Finished?)
    && (outcome.Following? && opens > 0 ==> GoesOn(serve, ctxEnded, waitCut, opens - 1, asked))
  }

  // resumeStream, followed for at most `rounds` connections: whatever happens to them, the caller has
  // seen exactly the decodable events after the starting cursor up to some point, in order, none twice
  // and none missing, and the cursor stands exactly there: past the `seen` frames that came.
  method ResumeStream<T>(serve: (nat, string) -> Open, start: string,
                         decode: Frame -> Option<T>, halts: (nat, T) -> bool,
                         ctxEnded: nat -> bool, waitCut: nat -> bool, budget: nat, cap: nat, rounds: nat,
                         ghost journal: seq<Frame>, ghost from: nat)
    returns (yielded: seq<T>, cursor: string, outcome: Outcome, progress: seq<bool>, seen: nat,
             opens: nat, asked: string)
    requires Server(journal, decode, serve) && Stands(journal, start, from)
    ensures Locates(journal, cursor, from + seen)
    ensures yielded == Events(journal[from..from + seen], decode)
    // It finishes at the caller's stop or the terminal event, and at no event before that.
    ensures if outcome.Finished? then HaltedAtLast(yielded, halts) else WentOn(yielded, halts)
    // It ends before the caller wants only for cause: `opens` counts the opens, and the last one was asked
    // to resume after `asked`.
    ensures opens <= rounds && Ended(serve, ctxEnded, waitCut, opens, asked, outcome)
    ensures opens > 0 ==> asked == Cursor(serve, cap, start, opens - 1)
    ensures opens - 1 <= |progress| <= opens
    ensures Tracks(serve, cap, start, decode, progress, if outcome.Finished? then opens - 1 else |progress|)
    ensures outcome.Following? ==> opens == rounds
    // It is lost exactly when the budget of connections in a row without an event is spent.
    ensures outcome.Lost? <==> Charged(progress) > budget && !outcome.Finished? && !outcome.Cancelled?
    // One whole connection is enough to have seen everything.
    ensures !outcome.Finished? && !outcome.Cancelled? ==>
      forall n | 0 <= n < |progress| && WholeAt(serve, n, cap) :: from + seen == |journal|
  {
    hide Journal, Replays, Whole, WholeAt, Events, Charged, WentOn, HaltedAtLast, Stands, Locates;
    hide Resume, Cursor, Brings, Tracks;
    Untracked(serve, cap, start, decode);
    yielded, cursor, progress := [], start, [];
    seen, opens, asked := 0, 0, start;
    var fails := 0;
    StandsOnce(journal, start, from);
    Nothing(journal, from, decode, halts);
    for n := 0 to rounds
      invariant |progress| == n == opens && (n > 0 ==> GoesOn(serve, ctxEnded, waitCut, n - 1, asked))
      invariant from + seen <= |journal|
      invariant Stands(journal, cursor, from + seen) && Locates(journal, cursor, from + seen)
      invariant yielded == Events(journal[from..from + seen], decode) && WentOn(yielded, halts)
      invariant fails == Charged(progress) <= budget
      invariant cursor == Cursor(serve, cap, start, n) && (n > 0 ==> asked == Cursor(serve, cap, start, n - 1))
      invariant Tracks(serve, cap, start, decode, progress, n)
      invariant forall k | 0 <= k < n && WholeAt(serve, k, cap) :: from + seen == |journal|
    {
      var open := serve(n, cursor);
      opens, asked := n + 1, cursor;
      CursorNext(serve, cap, start, n);
      var delivered := false;
      if open.Streams? {
        assert Replays(journal, cursor, decode, open);
        WholeStreams(serve, n, cursor, cap);
        var events, finished, more;
        events, cursor, finished, more := Follow(open, cap, cursor, decode, halts, yielded, journal, from, from + seen);
        seen := seen + more;
        StandsOnce(journal, cursor, from + seen);
        delivered := |events| > |yielded|;
        yielded := events;
        OneMore(progress, delivered);
        TracksOne(serve, cap, start, decode, progress, delivered);
        progress := progress + [delivered];
        if finished { return yielded, cursor, Finished, progress, seen, opens, asked; }
        if ctxEnded(n) { return yielded, cursor, Cancelled, progress, seen, opens, asked; }
        if delivered { fails := 0; }
      } else {
        WholeStreams(serve, n, cursor, cap);
        if ctxEnded(n) { return yielded, cursor, Cancelled, progress, seen, opens, asked; }
        if !open.reconnectable { return yielded, cursor, Refused, progress, seen, opens, asked; }
        OneMore(progress, false);
        FailedOpen(open, cap, cursor, decode);
        TracksOne(serve, cap, start, decode, progress, false);
        progress := progress + [false];
      }
      fails := fails + 1;
      if fails > budget { return yielded, cursor, Lost, progress, seen, opens, asked; }
      if waitCut(n) { return yielded, cursor, Cancelled, progress, seen, opens, asked; }
    }
    outcome := Following;
  }

  lemma WholeStreams(serve: (nat, string) -> Open, n: nat, c: string, cap: nat)
    ensures WholeAt(serve, n, cap) ==> Whole(serve(n, c), cap) && serve(n, c).Streams?
  {
  }

  lemma Nothing<T>(journal: seq<Frame>, from: nat, decode: Frame -> Option<T>, halts: (nat, T) -> bool)
    requires from <= |journal|
    ensures Events(journal[from..from], decode) == [] && WentOn<T>([], halts) && Charged([]) == 0
  {
  }
}
