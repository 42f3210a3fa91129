// Resuming download (internal/artifacts/read.go): a reader that reopens the object from the bytes
// already delivered, while the object may be replaced between any two requests. Each of its methods
// makes the moves of a run in DownloadSpec.
module Download {
  import opened Common
  import opened Ranges
  import opened Storage
  import opened DownloadSpec

  const BUFFER := 32768        // io.Copy's buffer

  // One read of a body: how many bytes, and whether its end comes with them.
  datatype Chunk = Chunk(most: nat, eager: bool)

  datatype Stop = EndOfFile | ContextEnded | Failed(fault: Fault)

  // How many bytes one read takes: at least one if any are wanted and left.
  function Taken(wanted: nat, most: nat, left: nat): (n: nat)
    ensures n <= wanted && n <= left && (wanted > 0 && left > 0 ==> n > 0)
  {
    Min(wanted, Min(most + 1, left))
  }

  // The generation was current at one of the first n requests.
  ghost predicate CurrentAt(deals: nat -> Deal, n: nat, generation: nat) {
    exists i: nat :: i < n && deals(i).generation == generation
  }

  // What any run has delivered: bytes of one generation that was current at one of its requests, and at
  // an end of file all of them if the size known is that generation's.
  lemma RunDelivers(content: nat -> seq<Byte>, deals: nat -> Deal, moves: seq<Move>)
    requires Store(content, deals) && Run(content, deals, moves).Some?
    ensures var k := Run(content, deals, moves).value;
      && k.delivered <= content(k.source)
      && (k.delivered != [] || k.complete ==> CurrentAt(deals, k.gets, k.source))
      && (k.complete && k.sized == Some(k.source) ==> k.delivered == content(k.source))
      && (k.complete && Announced(deals) ==> k.sized == Some(k.source))
      && (k.body.Some? ==> k.gets > 0 && k.fault.None?)
      && (k.body.Some? && k.delivered != [] ==> k.source == k.body.value.generation)
  {
    hide Run, Store, Announced, SizeSound;
    RunSound(content, deals, moves);
  }

  class Reader {
    const content: nat -> seq<Byte>
    const deals: nat -> Deal
    const chunks: nat -> Chunk
    var gets: nat                     // requests sent
    var pulls: nat                    // body reads made
    var body: Option<Body>
    var offset: nat                   // how many bytes went to the caller
    var size: int                     // the length last announced, -1 if none was
    var generation: Option<nat>       // what the first 200 was a copy of; later requests ask for the same
    var failures: nat                 // reconnects since the last byte
    var dropped: Option<Fault>        // what broke the body, while none is open
    var err: Option<Stop>             // how reading ended, once it has
    ghost var books: Books            // what was delivered, and where it came from
    ghost var moves: seq<Move>        // how it came to that

    constructor (content: nat -> seq<Byte>, deals: nat -> Deal, chunks: nat -> Chunk)
      requires Store(content, deals)
      ensures Valid() && Counted() && books == Unopened && err.None? && dropped.None?
      ensures this.content == content && this.deals == deals && this.chunks == chunks
    {
      this.content, this.deals, this.chunks := content, deals, chunks;
      gets, pulls, body, offset, size, generation, failures := 0, 0, None, 0, -1, None, 0;
      dropped, err, books, moves := None, None, Unopened, [];
    }

    // The fields say what the books say.
    ghost predicate Mirrors(k: Books)
      reads this
    {
      gets == k.gets && body == k.body && offset == |k.delivered| && size == k.size && generation == k.generation
    }

    // The books are those of a run, so they keep everything a run keeps.
    ghost predicate Valid()
      reads this
    {
      && Store(content, deals) && Run(content, deals, moves) == Some(books) && Mirrors(books)
      && books.complete == (err == Some(EndOfFile)) && failures <= RECONNECT_BUDGET + 1
    }

    // The failures are the reconnects since the last byte.
    ghost predicate Counted()
      reads this
    {
      failures == Barren(content, deals, moves) <= RECONNECT_BUDGET
    }

    // One GET for the bytes from the offset: a body positioned there, or a fault.
    method Open() returns (fault: Option<Fault>)
      requires Valid() && CanMove(books, Get)
      modifies this`gets, this`generation, this`size, this`body, this`books, this`moves
      ensures Valid() && books == Opened(content, deals, old(books)) && moves == old(moves) + [Get]
      ensures Barren(content, deals, moves) == Barren(content, deals, old(moves)) +
        if old(books).gets > 0 && old(books).fault != Some(Api(401)) then 1 else 0
      ensures fault == books.fault && (fault.None? <==> body.Some?) && !books.complete && Unread(old(books), books)
      // A reader whose pin is older than its bytes can only fail.
      ensures offset > 0 && old(generation) != Some(books.source) ==> fault.Some?
    {
      hide Respond, Store, Sound, WholeTaken, PartTaken, Run, Barren;
      RunSound(content, deals, moves);
      OpenedSound(content, deals, books);
      OneMove(content, deals, moves, Get);
      OneBarren(content, deals, moves, Get);
      var deal := deals(gets);
      var r := Respond(content(deal.generation), deal, offset, if offset > 0 then generation else None);
      ghost var sent := books.(gets := gets + 1);
      gets := gets + 1;
      match r {
        case Failure(f) => fault := Some(f);
        case Full(_, _, _, _) => fault := TakeWhole(sent, r);
        case Partial(_, _, _) => fault := TakePart(sent, r, deal.generation);
      }
      books, moves := Opened(content, deals, books), moves + [Get];
    }

    method TakeWhole(ghost k: Books, r: Response) returns (fault: Option<Fault>)
      requires r.Full? && gets > 0 && Mirrors(k)
      modifies this`generation, this`size, this`body
      ensures Mirrors(WholeTaken(k, r)) && fault == WholeTaken(k, r).fault
    {
      if generation.None? { generation := Some(r.generation); }
      if r.length.Some? { size := r.length.value; }
      if |r.bytes| < offset { return Some(Connection); }       // the part to skip is cut off
      body := Some(Body(r.generation, r.bytes[offset..], r.ending));
      fault := None;
    }

    method TakePart(ghost k: Books, r: Response, g: nat) returns (fault: Option<Fault>)
      requires r.Partial? && gets > 0 && Mirrors(k)
      modifies this`size, this`body
      ensures Mirrors(PartTaken(k, g, r)) && fault == PartTaken(k, g, r).fault
    {
      hide ContentRange;
      var range := ContentRange(r.contentRange);
      if range.None? || range.value.0 != offset { return Some(Other); }
      if range.value.1 >= 0 { size := range.value.1; }
      body := Some(Body(g, r.bytes, r.ending));
      fault := None;
    }

    // withToken around Open: one refused token is replaced and the request sent once more.
    method OpenAuthorized() returns (fault: Option<Fault>)
      requires Valid() && CanMove(books, Get) && books.fault != Some(Api(401))
      modifies this`gets, this`generation, this`size, this`body, this`books, this`moves
      ensures Valid() && fault == books.fault && (fault.None? <==> body.Some?)
      ensures !books.complete && Unread(old(books), books) && gets > old(gets)
      // One request, or a second after a refusal and then no more; one reconnect, unless it is the first.
      ensures var refused := Opened(content, deals, old(books)).fault == Some(Api(401));
        moves == old(moves) + if refused then [Get, Get] else [Get]
      ensures Barren(content, deals, moves) ==
        Barren(content, deals, old(moves)) + if old(books).gets > 0 then 1 else 0
    {
      hide Run, Store, Opened, Barren;
      Counts(content, deals, books);
      fault := Open();
      if fault == Some(Api(401)) {
        Counts(content, deals, books);
        fault := Open();
      }
    }

    // Reopen at the offset, as often as the budget of reconnects without a byte allows. `reason` is
    // what ended the previous body, None on the first open.
    method Connect(reason: Option<Fault>) returns (stop: Option<Stop>)
      requires Valid() && CanMove(books, Get) && Counted() && books.fault.None?
      requires reason.None? <==> books.gets == 0
      modifies this`gets, this`generation, this`size, this`body, this`books, this`moves, this`failures
      ensures Valid() && (stop.None? <==> body.Some?) && !books.complete && Unread(old(books), books)
      ensures stop.None? ==> Counted() && (reason.Some? ==> failures > old(failures))
      // It stops only for cause.
      ensures stop.Some? ==> Caused(content, deals, moves, books, stop.value) && stop.value != EndOfFile
    {
      hide Run, Store, Barren, Opened;
      var last := reason;
      while true
        invariant Valid() && CanMove(books, Get) && Unread(old(books), books) && Counted()
        invariant old(failures) <= failures && books.fault != Some(Api(401))
        invariant last.None? <==> gets == 0
        invariant books.fault.Some? ==> last == books.fault
        invariant last.None? ==> failures == old(failures) && reason.None?
        decreases RECONNECT_BUDGET - failures, if last.None? then 1 else 0
      {
        if last.Some? {
          failures := failures + 1;
          if failures > RECONNECT_BUDGET { return Some(Failed(last.value)); }
          if deals(gets).ctxEnded { return Some(ContextEnded); }
        }
        var fault := OpenAuthorized();
        if fault.None? { return None; }
        if !Resumable(fault.value, deals(gets).ctxEnded) { return Some(Failed(fault.value)); }
        last := fault;
      }
    }

    // Take the next bytes of the open body, and its end when that is reached.
    method Pull(p: nat) returns (bytes: seq<Byte>, ended: bool)
      requires Valid() && body.Some? && err.None?
      modifies this`body, this`offset, this`pulls, this`failures, this`books, this`moves
      ensures Valid() && failures == (if bytes == [] then old(failures) else 0)
      ensures |bytes| <= |old(body.value.rest)| && old(gets) > 0 && books == Pulled(old(books), |bytes|)
      ensures books.delivered == old(books.delivered) + bytes && |bytes| <= p
      ensures old(offset) > 0 ==> books.source == old(books.source)
      ensures moves == old(moves) + [Take(|bytes|)] && (old(Counted()) ==> Counted())
      ensures ended ==> CanMove(books, End)
      ensures !ended && p > 0 ==> bytes != []
    {
      hide Store, Run, Taken, Barren;
      RunDelivers(content, deals, moves);
      var b := body.value;
      var chunk := chunks(pulls);
      var n := Taken(p, chunk.most, |b.rest|);
      bytes := b.rest[..n];
      ended := b.rest == [] || (n == |b.rest| && chunk.eager);
      OneMove(content, deals, moves, Take(n));
      OneBarren(content, deals, moves, Take(n));
      books, moves := Pulled(books, n), moves + [Take(n)];
      pulls, offset, body := pulls + 1, offset + n, Some(b.(rest := b.rest[n..]));
      failures := if n > 0 then 0 else failures;
    }

    // The open body has ended: the file is complete, or the connection dropped and the next read reopens.
    method EndBody()
      requires Valid() && err.None? && CanMove(books, End)
      modifies this`body, this`err, this`dropped, this`books, this`moves
      ensures Valid() && books == EndedBody(old(books)) && moves == old(moves) + [End]
      ensures old(Counted()) ==> Counted()
      ensures err == Some(EndOfFile) <==> AtEnd(old(books))
      ensures err == Some(ContextEnded) <==> !AtEnd(old(books)) && deals(gets).ctxEnded
      ensures err.None? <==> !AtEnd(old(books)) && !deals(gets).ctxEnded
      ensures err.None? ==> CanMove(books, Get) && dropped.Some? && books.fault.None? && books.gets > 0
    {
      hide Store, Run, Barren;
      RunDelivers(content, deals, moves);
      OneMove(content, deals, moves, End);
      OneBarren(content, deals, moves, End);
      books, moves := EndedBody(books), moves + [End];
      var ending := body.value.ending;
      if ending.None? && (size < 0 || offset >= size) {
        err := Some(EndOfFile);
        return;
      }
      body := None;
      if deals(gets).ctxEnded { err := Some(ContextEnded); return; }
      dropped := Some(if ending.Some? then ending.value else Connection);
    }

    // Reopen after a drop, or remember why that failed.
    method Reconnect()
      requires Valid() && CanMove(books, Get) && err.None? && dropped.Some? && Counted()
      requires books.fault.None? && books.gets > 0
      modifies this`gets, this`generation, this`size, this`body, this`books, this`moves, this`failures
      modifies this`dropped, this`err
      ensures Valid() && Unread(old(books), books)
      ensures err.None? ==> body.Some? && old(failures) < failures && Counted()
      ensures err.Some? ==> body.None? && Caused(content, deals, moves, books, err.value)
    {
      hide Store, Run, Barren;
      var failed := Connect(dropped);
      if failed.Some? { err := failed; } else { dropped := None; }
    }

    // Between reads, a reader that has not ended has a body, or a reason to reopen.
    ghost predicate Ready()
      reads this
    {
      && Valid() && (err.Some? ==> Caused(content, deals, moves, books, err.value))
      && (err.None? ==> Counted() && (body.Some? || Dropped()))
    }

    ghost predicate Dropped()
      reads this
    {
      dropped.Some? && CanMove(books, Get) && books.fault.None? && books.gets > 0
    }

    method Read(p: nat) returns (bytes: seq<Byte>, stop: Option<Stop>)
      requires Ready()
      modifies this
      ensures Ready() && stop == err
      ensures books.delivered == old(books.delivered) + bytes && |bytes| <= p
      // The bytes of all reads together come from one generation, once any have come at all.
      ensures old(offset) > 0 ==> books.source == old(books.source)
      ensures stop.None? && p > 0 ==> bytes != []
    {
      hide Store, Run, CanMove, Barren, Caused;
      while err.None?
        invariant Ready() && books.delivered == old(books.delivered)
        invariant old(offset) > 0 ==> books.source == old(books.source)
        decreases RECONNECT_BUDGET + 1 - failures, if body.Some? then 1 else 0
      {
        if body.None? {
          Reconnect();
          if err.Some? { return [], err; }
        }
        var ended;
        bytes, ended := Pull(p);
        if !ended { return bytes, None; }
        EndBody();
        if err.Some? { EndCaused(content, deals, moves, books, err.value); }
        if err.Some? || bytes != [] { return bytes, err; }
      }
      return [], err;
    }
  }

  // Why reading may stop: the file is complete; the caller's context has ended; the last GET failed with a
  // fault that is not resumed; or the budget of reconnects in a row without a byte is spent.
  ghost predicate Caused(content: nat -> seq<Byte>, deals: nat -> Deal, moves: seq<Move>, k: Books, stop: Stop) {
    match stop
    case EndOfFile => k.complete
    case ContextEnded => deals(k.gets).ctxEnded
    case Failed(f) =>
      || (k.fault == Some(f) && !Resumable(f, deals(k.gets).ctxEnded))
      || (Barren(content, deals, moves) == RECONNECT_BUDGET && (k.fault.Some? ==> k.fault == Some(f)))
  }

  lemma EndCaused(content: nat -> seq<Byte>, deals: nat -> Deal, moves: seq<Move>, k: Books, stop: Stop)
    requires stop == EndOfFile ==> k.complete
    requires stop == ContextEnded ==> deals(k.gets).ctxEnded
    requires !stop.Failed?
    ensures Caused(content, deals, moves, k, stop)
  {
  }

  // When a GET counts as a reconnect.
  lemma Counts(content: nat -> seq<Byte>, deals: nat -> Deal, k: Books)
    ensures Opened(content, deals, k).gets == k.gets + 1
  {
  }

  // Requests in between, and nothing read.
  ghost predicate Unread(k: Books, k': Books) {
    k'.delivered == k.delivered && k'.source == k.source
  }

  // What a download came to: the moves are a run that delivered these bytes over these requests.
  ghost predicate Delivers(content: nat -> seq<Byte>, deals: nat -> Deal, moves: seq<Move>,
                           bytes: seq<Byte>, stop: Stop, requests: nat) {
    Run(content, deals, moves).Some? &&
    var k := Run(content, deals, moves).value;
    && k.delivered == bytes && k.gets == requests && (k.complete <==> stop == EndOfFile)
    // The bytes are how one generation begins, which was current at one of the requests.
    && bytes <= content(k.source) && (bytes != [] || stop == EndOfFile ==> CurrentAt(deals, requests, k.source))
    // An end of file means all of it, if the size known was told of that generation.
    && (stop == EndOfFile && k.sized == Some(k.source) ==> bytes == content(k.source))
    && (stop == EndOfFile && Announced(deals) ==> k.sized == Some(k.source))
    // Any other stop has its cause, so a drop within the budget is followed by a GET at the offset.
    && Caused(content, deals, moves, k, stop)
  }

  // io.Copy over a reader: the bytes of the file, or why they stopped coming, with those that came.
  method Download(content: nat -> seq<Byte>, deals: nat -> Deal, chunks: nat -> Chunk)
    returns (bytes: seq<Byte>, stop: Stop, requests: nat)
    requires Store(content, deals)
    ensures exists moves: seq<Move> :: Delivers(content, deals, moves, bytes, stop, requests)
  {
    hide Announced, Store, Run, Caused, Barren;
    var r := new Reader(content, deals, chunks);
    bytes := [];
    var failed := r.Connect(None);
    if failed.Some? {
      RunDelivers(content, deals, r.moves);
      assert Delivers(content, deals, r.moves, [], failed.value, r.gets);
      return [], failed.value, r.gets;
    }
    while true
      invariant r.Ready() && r.content == content && r.deals == deals
      invariant fresh(r) && bytes == r.books.delivered && r.err.None?
      decreases if r.offset == 0 then 1 else 0, |content(r.books.source)| - r.offset
    {
      var more, end := r.Read(BUFFER);
      bytes := bytes + more;
      RunDelivers(content, deals, r.moves);
      if end.Some? {
        assert Delivers(content, deals, r.moves, bytes, end.value, r.gets);
        return bytes, end.value, r.gets;
      }
    }
  }
}
