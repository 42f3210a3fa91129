// What a resuming download does, move by move (internal/artifacts/read.go): storage's answers, the
// reader's books, and what every run of them keeps.
//
// Storage keeps one content per generation and never reuses a generation; each GET meets a `Deal`
// saying which generation is current, how the request fares, and where the body is cut.
module DownloadSpec {
  import opened Common
  import opened Ranges
  import opened Storage

  // `announces`: the reply states the object's length. `cut`: the body stops at that byte of the object,
  // by `ending`, a fault or (None) an end of file.
  datatype Answer =
    | Fails(fault: Fault)
    | Serves(whole: bool, announces: bool, cut: nat, ending: Option<Fault>)
    | Strays(first: nat, total: nat)       // a 206 that resumes somewhere else

  datatype Deal = Deal(generation: nat, answer: Answer, ctxEnded: bool)

  datatype Response =
    | Failure(fault: Fault)
    | Full(generation: nat, length: Option<nat>, bytes: seq<Byte>, ending: Option<Fault>)        // 200
    | Partial(contentRange: string, bytes: seq<Byte>, ending: Option<Fault>)                     // 206

  // The bytes from `from` on, up to the cut.
  function Stretch(content: seq<Byte>, from: nat, cut: nat): seq<Byte> {
    var to := Min(cut, |content|);
    if to <= from then [] else content[from..to]
  }

  // Storage's side of one GET for the bytes from `offset`, pinned to a generation or not: any request
  // may fail, and a pin that does not match is refused with 412.
  function Respond(content: seq<Byte>, deal: Deal, offset: nat, pinned: Option<nat>): Response {
    if deal.answer.Fails? then Failure(deal.answer.fault)
    else if pinned.Some? && pinned.value != deal.generation then Failure(Api(412))
    else match deal.answer
      case Serves(whole, announces, cut, ending) =>
        var length := if announces then Some(|content|) else None;
        if offset == 0 || whole then Full(deal.generation, length, Stretch(content, 0, cut), ending)
        else if offset >= |content| then Failure(Api(416))
        else Partial(RangeHeader(offset, |content| - 1, length), Stretch(content, offset, cut), ending)
      case Strays(first, total) =>
        if offset == 0 || first == offset then Failure(Api(416))
        else Partial(RangeHeader(first, total, Some(total)), [], None)
  }

  // `delivered` is how `whole` begins, and `rest` how it goes on from `offset`.
  ghost predicate Begins(whole: seq<Byte>, delivered: seq<Byte>) { delivered <= whole }

  ghost predicate GoesOn(whole: seq<Byte>, offset: nat, rest: seq<Byte>) {
    offset <= |whole| && rest <= whole[offset..]
  }

  ghost predicate Honest(content: seq<Byte>, deal: Deal, offset: nat, pinned: Option<nat>, r: Response) {
    && (pinned.Some? && pinned.value != deal.generation ==> r.Failure?)
    && (r.Full? ==>
          && r.generation == deal.generation && r.bytes <= content && (r.length.Some? ==> r.length.value == |content|)
          && deal.answer.Serves? && (deal.answer.announces <==> r.length.Some?))
    && (r.Partial? ==>
          var range := ContentRange(r.contentRange);
          && range.Some?
          && (range.value.0 == offset ==>
                && deal.answer.Serves? && 0 < offset < |content| && GoesOn(content, offset, r.bytes)
                && range.value.1 == if deal.answer.announces then |content| else -1))
  }

  // What a response can be trusted for: the current generation's own bytes, and a range header that
  // says where they start.
  lemma RespondHonest(content: seq<Byte>, deal: Deal, offset: nat, pinned: Option<nat>)
    requires |content| <= MAX_INT64
    requires deal.answer.Strays? ==> deal.answer.first <= MAX_INT64 && deal.answer.total <= MAX_INT64
    ensures Honest(content, deal, offset, pinned, Respond(content, deal, offset, pinned))
  {
    hide ContentRange, RangeHeader;
    var r := Respond(content, deal, offset, pinned);
    if r.Partial? {
      if deal.answer.Strays? {
        RangeRoundTrip(deal.answer.first, deal.answer.total, Some(deal.answer.total));
      } else {
        RangeRoundTrip(offset, |content| - 1, if deal.answer.announces then Some(|content|) else None);
      }
    }
  }

  // What an object store may do over time: replace an object, but never bring a replaced generation
  // back, and hold objects whose length fits an int64.
  ghost predicate Store(content: nat -> seq<Byte>, deals: nat -> Deal) {
    NeverReused(deals) && (forall g :: |content(g)| <= MAX_INT64) && (forall i :: StraysFit(deals(i).answer))
  }

  ghost predicate NeverReused(deals: nat -> Deal) {
    forall i: nat, j: nat, k: nat | i <= j <= k && deals(i).generation == deals(k).generation ::
      deals(j).generation == deals(i).generation
  }

  predicate StraysFit(a: Answer) { a.Strays? ==> a.first <= MAX_INT64 && a.total <= MAX_INT64 }

  ghost predicate Announced(deals: nat -> Deal) {
    forall i :: deals(i).answer.Serves? ==> deals(i).answer.announces
  }

  // What storage promises about the i-th request: its generation, if it was current at some earlier
  // request, has been current ever since.
  lemma StoreAt(content: nat -> seq<Byte>, deals: nat -> Deal, i: nat)
    requires Store(content, deals)
    ensures forall h: nat, j: nat | h <= j <= i && deals(h).generation == deals(i).generation ::
      deals(j).generation == deals(i).generation
    ensures |content(deals(i).generation)| <= MAX_INT64
    ensures deals(i).answer.Strays? ==> deals(i).answer.first <= MAX_INT64 && deals(i).answer.total <= MAX_INT64
    ensures Announced(deals) && deals(i).answer.Serves? ==> deals(i).answer.announces
  {
  }

  // ---------------------------------------------------------------- the reader's books

  datatype Body = Body(generation: nat, rest: seq<Byte>, ending: Option<Fault>)

  // What a reader knows and has done. `pinAt` is the request whose response named `generation`; `source`
  // the generation the delivered bytes are from and `sourceAt` the request that brought the last of
  // them; `sized` the generation whose length `size` is and `sizedAt` the request that told it; `fault`
  // why the last request opened no body.
  datatype Books = Books(
    gets: nat, generation: Option<nat>, pinAt: nat, delivered: seq<Byte>, source: nat, sourceAt: nat,
    body: Option<Body>, size: int, sized: Option<nat>, sizedAt: nat, fault: Option<Fault>, complete: bool)

  const Unopened := Books(0, None, 0, [], 0, 0, None, -1, None, 0, None, false)

  function Sizing(k: Books, length: Option<nat>, generation: nat): Books
    requires k.gets > 0
  {
    if length.Some? then k.(size := length.value, sized := Some(generation), sizedAt := k.gets - 1) else k
  }

  // What becomes of a 200, the whole object, which is skipped to the offset.
  function WholeTaken(k: Books, r: Response): Books
    requires r.Full? && k.gets > 0
  {
    var offset := |k.delivered|;
    var pinned := if k.generation.Some? then k else k.(generation := Some(r.generation), pinAt := k.gets - 1);
    var sized := Sizing(pinned, r.length, r.generation);
    if |r.bytes| < offset then sized.(fault := Some(Connection))
    else sized.(fault := None, body := Some(Body(r.generation, r.bytes[offset..], r.ending)))
  }

  // What becomes of a 206, which must resume exactly at the offset.
  function PartTaken(k: Books, generation: nat, r: Response): Books
    requires r.Partial? && k.gets > 0
  {
    var range := ContentRange(r.contentRange);
    if range.None? || range.value.0 != |k.delivered| then k.(fault := Some(Other))
    else
      var total := range.value.1;
      Sizing(k, if total >= 0 then Some(total as nat) else None, generation)
        .(fault := None, body := Some(Body(generation, r.bytes, r.ending)))
  }

  // One GET from where the reader stands.
  function Opened(content: nat -> seq<Byte>, deals: nat -> Deal, k: Books): Books {
    var deal, offset, sent := deals(k.gets), |k.delivered|, k.(gets := k.gets + 1);
    var r := Respond(content(deal.generation), deal, offset, if offset > 0 then k.generation else None);
    match r
    case Failure(f) => sent.(fault := Some(f))
    case Full(_, _, _, _) => WholeTaken(sent, r)
    case Partial(_, _, _) => PartTaken(sent, deal.generation, r)
  }

  // The open body's next n bytes are delivered.
  function Pulled(k: Books, n: nat): Books
    requires k.body.Some? && n <= |k.body.value.rest| && k.gets > 0
  {
    var b := k.body.value;
    k.(delivered := k.delivered + b.rest[..n], source := b.generation, sourceAt := k.gets - 1,
       body := Some(b.(rest := b.rest[n..])))
  }

  // Whether the reader takes the end of its body for the end of the file.
  predicate AtEnd(k: Books) {
    k.body.Some? && k.body.value.rest == [] && k.body.value.ending.None? && (k.size < 0 || |k.delivered| >= k.size)
  }

  // The end of a body: the file is complete, or there is no body any more.
  function EndedBody(k: Books): Books { if AtEnd(k) then k.(complete := true) else k.(body := None) }

  // ---------------------------------------------------------------- runs

  datatype Move = Get | Take(n: nat) | End

  // A fault after which the reader sends another request: a refused token or a resumable fault.
  predicate Retried(f: Fault) { f == Api(401) || Resumable(f, false) }

  predicate GoingOn(k: Books) { k.fault.None? || Retried(k.fault.value) }

  predicate CanMove(k: Books, move: Move) {
    !k.complete &&
    match move
    case Get => k.body.None? && GoingOn(k)
    case Take(n) => k.body.Some? && n <= |k.body.value.rest| && k.gets > 0
    case End => k.body.Some? && k.body.value.rest == [] && k.source == k.body.value.generation
  }

  function After(content: nat -> seq<Byte>, deals: nat -> Deal, k: Books, move: Move): Books
    requires CanMove(k, move)
  {
    match move
    case Get => Opened(content, deals, k)
    case Take(n) => Pulled(k, n)
    case End => EndedBody(k)
  }

  // The books after the moves, if each was possible where it was made.
  function Run(content: nat -> seq<Byte>, deals: nat -> Deal, moves: seq<Move>): Option<Books> {
    if moves == [] then Some(Unopened)
    else
      var k, move := Run(content, deals, moves[..|moves|-1]), moves[|moves|-1];
      if k.Some? && CanMove(k.value, move) then Some(After(content, deals, k.value, move)) else None
  }

  // Reconnects since the last byte: GETs other than the first and than one sent again with a new token.
  function Barren(content: nat -> seq<Byte>, deals: nat -> Deal, moves: seq<Move>): nat {
    if moves == [] then 0
    else
      var front, move := moves[..|moves|-1], moves[|moves|-1];
      var k, before := Run(content, deals, front), Barren(content, deals, front);
      match move
      case Get => if k.Some? && k.value.gets > 0 && k.value.fault != Some(Api(401)) then before + 1 else before
      case Take(n) => if n > 0 then 0 else before
      case End => before
  }

  lemma OneBarren(content: nat -> seq<Byte>, deals: nat -> Deal, moves: seq<Move>, move: Move)
    requires Run(content, deals, moves).Some?
    ensures var k, before := Run(content, deals, moves).value, Barren(content, deals, moves);
      Barren(content, deals, moves + [move]) ==
        match move
        case Get => if k.gets > 0 && k.fault != Some(Api(401)) then before + 1 else before
        case Take(n) => if n > 0 then 0 else before
        case End => before
  {
    hide Run;
    assert (moves + [move])[..|moves|] == moves;
  }

  lemma OneMove(content: nat -> seq<Byte>, deals: nat -> Deal, moves: seq<Move>, move: Move)
    requires Run(content, deals, moves).Some? && CanMove(Run(content, deals, moves).value, move)
    ensures Run(content, deals, moves + [move]) == Some(After(content, deals, Run(content, deals, moves).value, move))
  {
    hide CanMove, After;
    assert (moves + [move])[..|moves|] == moves;
  }

  // ---------------------------------------------------------------- what every run keeps

  // Everything delivered is a prefix of one generation's content; an open body continues it; the
  // pinned generation was named no later than the bytes came, so a pin that differs from them is stale
  // for good; the size is that of the generation that told it, and a complete file is all of its
  // generation if that is the one.
  ghost predicate Sound(content: nat -> seq<Byte>, deals: nat -> Deal, k: Books) {
    && (k.generation.Some? ==> k.pinAt < k.gets && deals(k.pinAt).generation == k.generation.value)
    && SizeSound(content, deals, k)
    && (k.delivered != [] ==>
          && Begins(content(k.source), k.delivered) && k.generation.Some?
          && k.pinAt <= k.sourceAt < k.gets && deals(k.sourceAt).generation == k.source)
    && (k.body.Some? ==> k.generation.Some? && k.fault.None? && Continues(content, deals, k))
    && (k.complete ==>
          && k.body.Some? && k.source == k.body.value.generation && Begins(content(k.source), k.delivered)
          && (k.sized == Some(k.source) ==> |k.delivered| == |content(k.source)|))
  }

  ghost predicate SizeSound(content: nat -> seq<Byte>, deals: nat -> Deal, k: Books) {
    if k.sized.None? then k.size < 0
    else k.size == |content(k.sized.value)| && k.sizedAt < k.gets && deals(k.sizedAt).generation == k.sized.value
  }

  ghost predicate Continues(content: nat -> seq<Byte>, deals: nat -> Deal, k: Books)
    requires k.body.Some?
  {
    && k.gets > 0 && k.body.value.generation == deals(k.gets - 1).generation
    && GoesOn(content(k.body.value.generation), |k.delivered|, k.body.value.rest)
    && (k.delivered != [] ==> k.body.value.generation == k.source)
    && (Announced(deals) ==> k.sized == Some(k.body.value.generation))
  }

  lemma SkipTo(whole: seq<Byte>, bytes: seq<Byte>, offset: nat)
    requires bytes <= whole && offset <= |bytes|
    ensures GoesOn(whole, offset, bytes[offset..])
  {
  }

  // Moving n bytes from what remains of a body to what was delivered.
  lemma Moved(whole: seq<Byte>, delivered: seq<Byte>, rest: seq<Byte>, n: nat)
    requires delivered == [] || Begins(whole, delivered)
    requires GoesOn(whole, |delivered|, rest) && n <= |rest|
    ensures Begins(whole, delivered + rest[..n])
    ensures GoesOn(whole, |delivered| + n, rest[n..])
  {
    var d := |delivered|;
    assert rest[..n] == whole[d..d + n];
    assert delivered + rest[..n] == whole[..d + n];
    assert rest[n..] == whole[d + n..][..|rest| - n];
  }

  lemma PullSound(content: nat -> seq<Byte>, deals: nat -> Deal, k: Books, n: nat)
    requires Sound(content, deals, k) && CanMove(k, Take(n))
    ensures Sound(content, deals, Pulled(k, n))
    ensures Begins(content(k.body.value.generation), k.delivered + k.body.value.rest[..n])
  {
    hide Begins, GoesOn, Announced;
    Moved(content(k.body.value.generation), k.delivered, k.body.value.rest, n);
  }

  lemma EndSound(content: nat -> seq<Byte>, deals: nat -> Deal, k: Books)
    requires Sound(content, deals, k) && CanMove(k, End)
    ensures Sound(content, deals, EndedBody(k))
  {
    hide Announced, GoesOn;
  }

  // A reader that has delivered bytes has a pin, and one whose pin is older than its bytes does not meet
  // the pinned generation again.
  lemma OpenPinned(content: nat -> seq<Byte>, deals: nat -> Deal, k: Books)
    requires Store(content, deals) && Sound(content, deals, k)
    ensures k.delivered != [] ==> k.generation.Some?
    ensures k.delivered != [] && k.generation != Some(k.source) ==> k.generation != Some(deals(k.gets).generation)
  {
    hide Begins, GoesOn, Announced, Store, SizeSound, Continues;
    StoreAt(content, deals, k.gets);
  }

  // Where a GET leaves everything but the body: the request counted, a missing pin or the size taken from
  // this response.
  ghost predicate Asked(content: nat -> seq<Byte>, deals: nat -> Deal, k: Books, k': Books) {
    && k'.gets == k.gets + 1 && k'.delivered == k.delivered && k'.source == k.source && k'.sourceAt == k.sourceAt
    && !k'.complete
    && (if k.generation.Some? || k'.generation.None? then k'.generation == k.generation && k'.pinAt == k.pinAt
        else k'.generation == Some(deals(k.gets).generation) && k'.pinAt == k.gets)
    && (k'.sized != k.sized || k'.sizedAt != k.sizedAt || k'.size != k.size ==>
          && k'.sized == Some(deals(k.gets).generation) && k'.sizedAt == k.gets
          && k'.size == |content(deals(k.gets).generation)|)
  }

  lemma AskedSound(content: nat -> seq<Byte>, deals: nat -> Deal, k: Books, k': Books)
    requires Sound(content, deals, k) && k.body.None? && !k.complete && Asked(content, deals, k, k')
    requires k'.body.Some? ==> k'.generation.Some? && k'.fault.None? && Continues(content, deals, k')
    ensures Sound(content, deals, k')
  {
    hide Begins, Continues, Announced;
  }

  // Whatever a GET is answered: an opened body continues what was delivered, and a reader whose pin is
  // older than its bytes opens none.
  lemma OpenedSound(content: nat -> seq<Byte>, deals: nat -> Deal, k: Books)
    requires Store(content, deals) && Sound(content, deals, k) && CanMove(k, Get)
    ensures var k' := Opened(content, deals, k);
      && Sound(content, deals, k') && Asked(content, deals, k, k') && (k'.fault.None? <==> k'.body.Some?)
      && (k.delivered != [] && k.generation != Some(k.source) ==> k'.fault.Some?)
  {
    hide Sound, Store, Announced, Respond, ContentRange, GoesOn, Begins;
    var deal, offset := deals(k.gets), |k.delivered|;
    var pinned := if offset > 0 then k.generation else None;
    OpenPinned(content, deals, k);
    StoreAt(content, deals, k.gets);
    RespondHonest(content(deal.generation), deal, offset, pinned);
    var r := Respond(content(deal.generation), deal, offset, pinned);
    if r.Full? && offset <= |r.bytes| { SkipTo(content(deal.generation), r.bytes, offset); }
    AskedSound(content, deals, k, Opened(content, deals, k));
  }

  lemma {:induction false} RunSound(content: nat -> seq<Byte>, deals: nat -> Deal, moves: seq<Move>)
    requires Store(content, deals) && Run(content, deals, moves).Some?
    ensures Sound(content, deals, Run(content, deals, moves).value)
  {
    hide Sound, Store, Opened, Pulled, EndedBody;
    if moves == [] {
      UnopenedSound(content, deals);
    } else {
      var k := Run(content, deals, moves[..|moves|-1]).value;
      RunSound(content, deals, moves[..|moves|-1]);
      match moves[|moves|-1] {
        case Get => OpenedSound(content, deals, k);
        case Take(n) => PullSound(content, deals, k, n);
        case End => EndSound(content, deals, k);
      }
    }
  }

  lemma UnopenedSound(content: nat -> seq<Byte>, deals: nat -> Deal)
    ensures Sound(content, deals, Unopened)
  {
  }

  // A body that ends cleanly once all of its generation is delivered ends the file, unless the size known
  // is that of another, longer object.
  lemma WholeBodyEnds(content: nat -> seq<Byte>, deals: nat -> Deal, moves: seq<Move>)
    requires Store(content, deals) && Run(content, deals, moves).Some?
    requires var k := Run(content, deals, moves).value;
      && CanMove(k, End) && k.body.value.ending.None? && |k.delivered| == |content(k.source)|
      && (k.sized.None? || k.sized == Some(k.source) || |content(k.sized.value)| <= |content(k.source)|)
    ensures After(content, deals, Run(content, deals, moves).value, End).complete
  {
    hide Run, Store;
    RunSound(content, deals, moves);
  }

  // A reader without a body whose pin is older than its bytes gets no further, whatever comes.
  lemma {:induction false} StaleForGood(content: nat -> seq<Byte>, deals: nat -> Deal,
                                        moves: seq<Move>, more: seq<Move>)
    requires Store(content, deals) && Run(content, deals, moves).Some? && Run(content, deals, moves + more).Some?
    requires var k := Run(content, deals, moves).value;
      k.body.None? && k.delivered != [] && k.generation != Some(k.source)
    ensures var k, k' := Run(content, deals, moves).value, Run(content, deals, moves + more).value;
      && k'.body.None? && k'.delivered == k.delivered && k'.source == k.source && k'.generation == k.generation
      && !k'.complete
    decreases |more|
  {
    hide Sound, Store, Opened;
    RunSound(content, deals, moves + more);
    if more == [] {
      assert moves + more == moves;
      StaleIncomplete(content, deals, Run(content, deals, moves).value);
    } else {
      var front := more[..|more|-1];
      assert (moves + more)[..|moves + more|-1] == moves + front;
      assert (moves + more)[|moves + more|-1] == more[|more|-1];
      RunSound(content, deals, moves + front);
      StaleForGood(content, deals, moves, front);
      var k := Run(content, deals, moves + front).value;
      OpenPinned(content, deals, k);
      OpenedSound(content, deals, k);
    }
  }

  lemma StaleIncomplete(content: nat -> seq<Byte>, deals: nat -> Deal, k: Books)
    requires Sound(content, deals, k) && k.body.None?
    ensures !k.complete
  {
  }

  // ---------------------------------------------------------------- what an end of file proves

  // The other store takes the reader through the same books.
  ghost predicate SameRun(c: nat -> seq<Byte>, d: nat -> Deal, content: nat -> seq<Byte>, deals: nat -> Deal,
                          moves: seq<Move>) {
    && Run(c, d, moves) == Run(content, deals, moves)
    && (moves == [] || SameRun(c, d, content, deals, moves[..|moves|-1]))
  }

  lemma {:induction false} SameAsItself(content: nat -> seq<Byte>, deals: nat -> Deal, moves: seq<Move>)
    ensures SameRun(content, deals, content, deals, moves)
  {
    if moves != [] { SameAsItself(content, deals, moves[..|moves|-1]); }
  }

  // An end of file proves the file whole, to a reader that keeps these books, if and only if the size it
  // knows was told by a response of the generation its bytes are from, or no file can be longer.
  lemma EndProvesWhole(content: nat -> seq<Byte>, deals: nat -> Deal, moves: seq<Move>)
    requires Store(content, deals) && Run(content, deals, moves).Some? && Run(content, deals, moves).value.complete
    ensures var k := Run(content, deals, moves).value;
      k.sized == Some(k.source) || |k.delivered| == MAX_INT64 <==>
      forall c: nat -> seq<Byte>, d: nat -> Deal | Store(c, d) && SameRun(c, d, content, deals, moves) ::
        |k.delivered| == |c(k.source)|
  {
    hide Store, Sound, Run;
    var k := Run(content, deals, moves).value;
    if k.sized == Some(k.source) || |k.delivered| == MAX_INT64 {
      forall c: nat -> seq<Byte>, d: nat -> Deal | Store(c, d) && SameRun(c, d, content, deals, moves)
        ensures |k.delivered| == |c(k.source)|
      {
        WholeIfSized(c, d, moves);
      }
    } else {
      SameAsItself(content, deals, moves);
      Shown(content, deals, moves);
      if |k.delivered| == |content(k.source)| {
        LongerStore(content, deals, k.source);
        LongerSame(content, deals, moves, k.source, k.gets - 1);
      }
    }
  }

  // What a complete run has come to.
  lemma Shown(content: nat -> seq<Byte>, deals: nat -> Deal, moves: seq<Move>)
    requires Store(content, deals) && Run(content, deals, moves).Some? && Run(content, deals, moves).value.complete
    ensures var k := Run(content, deals, moves).value;
      && |k.delivered| <= |content(k.source)| <= MAX_INT64 && GoingOn(k)
      && k.gets > 0 && deals(k.gets - 1).generation == k.source
  {
    hide NeverReused, Run;
    RunSound(content, deals, moves);
  }

  lemma WholeIfSized(content: nat -> seq<Byte>, deals: nat -> Deal, moves: seq<Move>)
    requires Store(content, deals) && Run(content, deals, moves).Some? && Run(content, deals, moves).value.complete
    requires var k := Run(content, deals, moves).value; k.sized == Some(k.source) || |k.delivered| == MAX_INT64
    ensures var k := Run(content, deals, moves).value; |k.delivered| == |content(k.source)|
  {
    hide Run;
    RunSound(content, deals, moves);
  }

  // The same objects, but generation g one byte longer, ...
  ghost function Longer(content: nat -> seq<Byte>, g: nat): nat -> seq<Byte> {
    (h: nat) => if h == g then content(h) + [0] else content(h)
  }

  // ... and every body of it cut where the shorter one ended.
  ghost function CutBack(content: nat -> seq<Byte>, deals: nat -> Deal, g: nat): nat -> Deal {
    (i: nat) =>
      var deal := deals(i);
      if deal.generation == g && deal.answer.Serves?
      then deal.(answer := deal.answer.(cut := Min(deal.answer.cut, |content(g)|))) else deal
  }

  lemma LongerStore(content: nat -> seq<Byte>, deals: nat -> Deal, g: nat)
    requires Store(content, deals) && |content(g)| < MAX_INT64
    ensures Store(Longer(content, g), CutBack(content, deals, g))
    ensures |Longer(content, g)(g)| == |content(g)| + 1
  {
    hide NeverReused, StraysFit;
    var c, d := Longer(content, g), CutBack(content, deals, g);
    CutBackReused(content, deals, g);
    forall i: nat ensures StraysFit(d(i).answer) {
      if d(i).answer != deals(i).answer { CutStrays(d(i).answer); }
    }
    forall h: nat ensures |c(h)| <= MAX_INT64 { assert |content(h)| <= MAX_INT64; }
  }

  lemma CutStrays(a: Answer)
    requires !a.Strays?
    ensures StraysFit(a)
  {
  }

  lemma CutBackReused(content: nat -> seq<Byte>, deals: nat -> Deal, g: nat)
    requires NeverReused(deals)
    ensures NeverReused(CutBack(content, deals, g))
  {
    var d := CutBack(content, deals, g);
    forall i: nat, j: nat, k: nat | i <= j <= k && d(i).generation == d(k).generation
      ensures d(j).generation == d(i).generation
    {
      assert deals(i).generation == deals(k).generation;
      assert deals(j).generation == deals(i).generation;
    }
  }

  lemma StretchSame(content: seq<Byte>, longer: seq<Byte>, from: nat, cut: nat)
    requires content <= longer
    ensures Stretch(longer, from, Min(cut, |content|)) == Stretch(content, from, cut)
  {
  }

  // One GET cannot tell the longer store from the shorter, unless it is told a length.
  lemma OpenedSame(content: nat -> seq<Byte>, deals: nat -> Deal, k: Books, g: nat)
    requires Store(content, deals) && |k.delivered| <= MAX_INT64
    requires var k' := Opened(content, deals, k); GoingOn(k') && k'.sized != Some(g)
    ensures Opened(Longer(content, g), CutBack(content, deals, g), k) == Opened(content, deals, k)
  {
    hide Store, WholeTaken, PartTaken, Stretch;
    var deal, offset := deals(k.gets), |k.delivered|;
    if deal.generation == g && deal.answer.Serves? {
      var whole, pinned := content(g), if offset > 0 then k.generation else None;
      StoreAt(content, deals, k.gets);
      var deal' := deal.(answer := deal.answer.(cut := Min(deal.answer.cut, |whole|)));
      assert CutBack(content, deals, g)(k.gets) == deal' && Longer(content, g)(g) == whole + [0];
      UntoldDeal(whole, deal, k.(gets := k.gets + 1), pinned, g);
      RespondSame(whole, deal, k.(gets := k.gets + 1), pinned);
    }
  }

  // A deal that told no length had none to tell.
  lemma UntoldDeal(whole: seq<Byte>, deal: Deal, k: Books, pinned: Option<nat>, g: nat)
    requires deal.generation == g && deal.answer.Serves? && |whole| <= MAX_INT64 && |k.delivered| <= MAX_INT64
    requires k.gets > 0
    requires var r := Respond(whole, deal, |k.delivered|, pinned);
      && (r.Failure? ==> Retried(r.fault))
      && (r.Full? ==> WholeTaken(k, r).sized != Some(g))
      && (r.Partial? ==> PartTaken(k, g, r).sized != Some(g))
    ensures !deal.answer.announces && !Respond(whole, deal, |k.delivered|, pinned).Failure?
  {
    hide ContentRange, RangeHeader, Stretch;
    var offset := |k.delivered|;
    if 0 < offset < |whole| { RangeRoundTrip(offset, |whole| - 1, Some(|whole|)); }
  }

  lemma RespondSame(whole: seq<Byte>, deal: Deal, k: Books, pinned: Option<nat>)
    requires deal.answer.Serves? && !deal.answer.announces && k.gets > 0 && |k.delivered| <= MAX_INT64
    requires !Respond(whole, deal, |k.delivered|, pinned).Failure?
    ensures var deal' := deal.(answer := deal.answer.(cut := Min(deal.answer.cut, |whole|)));
      var r, r' := Respond(whole, deal, |k.delivered|, pinned), Respond(whole + [0], deal', |k.delivered|, pinned);
      && (r.Full? ==> r' == r)
      && (r.Partial? ==> r'.Partial? && PartTaken(k, deal.generation, r') == PartTaken(k, deal.generation, r))
  {
    hide ContentRange, RangeHeader, Stretch;
    var offset := |k.delivered|;
    StretchSame(whole, whole + [0], 0, deal.answer.cut);
    StretchSame(whole, whole + [0], offset, deal.answer.cut);
    if 0 < offset < |whole| {
      RangeRoundTrip(offset, |whole| - 1, None);
      RangeRoundTrip(offset, |whole|, None);
    }
  }

  // Told no length of generation g, which is current at a later request, a run cannot tell the longer
  // store from the shorter.
  lemma {:induction false} LongerSame(content: nat -> seq<Byte>, deals: nat -> Deal, moves: seq<Move>,
                                      g: nat, last: nat)
    requires Store(content, deals) && Run(content, deals, moves).Some? && deals(last).generation == g
    requires var k := Run(content, deals, moves).value; k.gets <= last + 1 && k.sized != Some(g) && GoingOn(k)
    ensures SameRun(Longer(content, g), CutBack(content, deals, g), content, deals, moves)
  {
    hide Store, Sound, Opened, Longer, CutBack, GoingOn;
    if moves != [] {
      var front, move := moves[..|moves|-1], moves[|moves|-1];
      var k := Run(content, deals, front).value;
      RunSound(content, deals, front);
      UntoldBefore(content, deals, k, move, g, last);
      LongerSame(content, deals, front, g, last);
      if move.Get? { OpenedSame(content, deals, k, g); }
    }
  }

  // A length of g once told stays known while g is current.
  lemma UntoldBefore(content: nat -> seq<Byte>, deals: nat -> Deal, k: Books, move: Move, g: nat, last: nat)
    requires Store(content, deals) && Sound(content, deals, k) && CanMove(k, move) && deals(last).generation == g
    requires var k' := After(content, deals, k, move); k'.gets <= last + 1 && k'.sized != Some(g)
    ensures k.sized != Some(g) && k.gets <= last + 1 && GoingOn(k) && |k.delivered| <= MAX_INT64
  {
    hide Store, Begins, GoesOn, Announced, Opened;
    if move.Get? {
      OpenedSound(content, deals, k);
      StoreAt(content, deals, last);
    }
    if k.delivered != [] { Fits(content, deals, k); }
  }

  lemma Fits(content: nat -> seq<Byte>, deals: nat -> Deal, k: Books)
    requires Store(content, deals) && Sound(content, deals, k) && k.delivered != []
    ensures |k.delivered| <= MAX_INT64
  {
    assert |content(k.source)| <= MAX_INT64;
  }

  // ---------------------------------------------------------------- a known size is not enough

  // An object of one byte, replaced by one of two.
  function OneThenTwo(generation: nat): seq<Byte> { if generation == 1 then [7] else [7, 8] }

  // The first response announces its length and drops before any byte; the second does not, and ends
  // after one.
  function DropsThenEnds(i: nat): Deal {
    if i == 0 then Deal(1, Serves(true, true, 0, Some(Connection)), false)
    else Deal(2, Serves(true, false, 1, None), false)
  }

  const AfterDrop := Unopened.(gets := 1, generation := Some(1), size := 1, sized := Some(1),
                               body := Some(Body(1, [], Some(Connection))))

  const AfterEnd := AfterDrop.(gets := 2, source := 1, body := Some(Body(2, [7], None)))

  const Short := AfterEnd.(delivered := [7], source := 2, sourceAt := 1, body := Some(Body(2, [], None)),
                           complete := true)

  // The reader still holds the size of the replaced object and takes the early end for the end of the
  // file: its run is complete, with a known size, one byte short.
  lemma KnownSizeCutsShort()
    ensures Store(OneThenTwo, DropsThenEnds)
    ensures Run(OneThenTwo, DropsThenEnds, [Get, Take(0), End, Get, Take(1), End]) == Some(Short)
    ensures Short.complete && Short.size >= 0 && |Short.delivered| < |OneThenTwo(Short.source)|
  {
    hide Opened, Run, Store, After, CanMove;
    OneThenTwoStore();
    FirstDrops();
    SecondEnds();
    var k3, k5 := AfterDrop.(source := 1, body := None), Short.(complete := false);
    RunsTo([Get, Take(0), End], Get, [Get, Take(0), End, Get], k3, AfterEnd);
    RunsTo([Get, Take(0), End, Get], Take(1), [Get, Take(0), End, Get, Take(1)], AfterEnd, k5);
    RunsTo([Get, Take(0), End, Get, Take(1)], End, [Get, Take(0), End, Get, Take(1), End], k5, Short);
  }

  lemma OneThenTwoStore()
    ensures Store(OneThenTwo, DropsThenEnds)
  {
  }

  // The first connection, up to its drop.
  lemma FirstDrops()
    ensures Run(OneThenTwo, DropsThenEnds, [Get, Take(0), End]) == Some(AfterDrop.(source := 1, body := None))
  {
    hide Opened, Run, After, CanMove;
    var k2 := AfterDrop.(source := 1);
    FirstMoves();
    NoMoves(OneThenTwo, DropsThenEnds);
    RunsTo([], Get, [Get], Unopened, AfterDrop);
    RunsTo([Get], Take(0), [Get, Take(0)], AfterDrop, k2);
    RunsTo([Get, Take(0)], End, [Get, Take(0), End], k2, k2.(body := None));
  }

  lemma FirstMoves()
    ensures var k2 := AfterDrop.(source := 1);
      && CanMove(Unopened, Get) && After(OneThenTwo, DropsThenEnds, Unopened, Get) == AfterDrop
      && CanMove(AfterDrop, Take(0)) && After(OneThenTwo, DropsThenEnds, AfterDrop, Take(0)) == k2
      && CanMove(k2, End) && After(OneThenTwo, DropsThenEnds, k2, End) == k2.(body := None)
  {
    hide Opened, Pulled;
    OpenDropped();
    TakeNothing(AfterDrop);
  }

  lemma TakeNothing(k: Books)
    requires CanMove(k, Take(0))
    ensures Pulled(k, 0) == k.(source := k.body.value.generation, sourceAt := k.gets - 1)
  {
    var rest := k.body.value.rest;
    assert k.delivered + rest[..0] == k.delivered && rest[0..] == rest;
  }

  // The moves of the second.
  lemma SecondEnds()
    ensures var k3, k5 := AfterDrop.(source := 1, body := None), Short.(complete := false);
      && CanMove(k3, Get) && After(OneThenTwo, DropsThenEnds, k3, Get) == AfterEnd
      && CanMove(AfterEnd, Take(1)) && After(OneThenTwo, DropsThenEnds, AfterEnd, Take(1)) == k5
      && CanMove(k5, End) && After(OneThenTwo, DropsThenEnds, k5, End) == Short
  {
    hide Opened;
    OpenEnded();
  }

  lemma NoMoves(content: nat -> seq<Byte>, deals: nat -> Deal)
    ensures Run(content, deals, []) == Some(Unopened)
  {
  }

  lemma RunsTo(moves: seq<Move>, move: Move, all: seq<Move>, k: Books, k': Books)
    requires Run(OneThenTwo, DropsThenEnds, moves) == Some(k) && all == moves + [move]
    requires CanMove(k, move) && After(OneThenTwo, DropsThenEnds, k, move) == k'
    ensures Run(OneThenTwo, DropsThenEnds, all) == Some(k')
  {
    hide CanMove, After;
    OneMove(OneThenTwo, DropsThenEnds, moves, move);
  }

  lemma OpenDropped()
    ensures Opened(OneThenTwo, DropsThenEnds, Unopened) == AfterDrop
  {
    hide ContentRange, RangeHeader;
    var r := Respond([7], DropsThenEnds(0), 0, None);
    assert r == Full(1, Some(1), [], Some(Connection));
    assert r.bytes[0..] == [];
  }

  lemma OpenEnded()
    ensures Opened(OneThenTwo, DropsThenEnds, AfterDrop.(source := 1, body := None)) == AfterEnd
  {
    hide ContentRange, RangeHeader;
    var r := Respond([7, 8], DropsThenEnds(1), 0, None);
    assert Stretch([7, 8], 0, 1) == [7];
    assert r == Full(2, None, [7], None);
    assert r.bytes[0..] == [7];
  }
}
