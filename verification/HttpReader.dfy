/** The pieces that an HTTP parser hands out, and what they add up to. */
module HttpPieces {
  import opened Bytes
  import opened Growbuf

  datatype Kind = Url | Field | Val

  // A piece of the URL, of a header name or of a header value.
  datatype Piece = Piece(kind: Kind, text: seq<byte>)

  // Adjacent pieces of one kind belong together: a name after a value starts a new header.
  function Grouped(pieces: seq<Piece>): seq<Piece> {
    if pieces == [] then [] else AddPiece(Grouped(pieces[..|pieces| - 1]), pieces[|pieces| - 1])
  }

  function AddPiece(groups: seq<Piece>, p: Piece): seq<Piece> {
    if Continues(groups, p.kind) then
      var n := |groups| - 1;
      groups[..n] + [Piece(p.kind, groups[n].text + p.text)]
    else groups + [p]
  }

  lemma {:induction false} GroupedSnoc(pieces: seq<Piece>, p: Piece)
    ensures Grouped(pieces + [p]) == AddPiece(Grouped(pieces), p)
  {
    assert (pieces + [p])[..|pieces|] == pieces;
  }

  lemma {:induction false} GroupGoesOn(pieces: seq<Piece>, p: Piece)
    requires Continues(pieces, p.kind)
    ensures Grouped(pieces) != []
    ensures var g := Grouped(pieces); var n := |g| - 1;
      Grouped(pieces + [p]) == g[..n] + [g[n].(text := g[n].text + p.text)]
  {
    LastOfGroup(pieces);
    GroupedSnoc(pieces, p);
  }

  // The text of the pieces, byte by byte, with what it is text of.
  function Spelled(pieces: seq<Piece>): seq<(Kind, byte)> {
    if pieces == [] then []
    else
      Spelled(pieces[..|pieces| - 1]) + Letters(pieces[|pieces| - 1])
  }

  function Letters(p: Piece): seq<(Kind, byte)> {
    seq(|p.text|, i requires 0 <= i < |p.text| => (p.kind, p.text[i]))
  }

  lemma {:induction false} AddSpelled(groups: seq<Piece>, p: Piece)
    ensures Spelled(AddPiece(groups, p)) == Spelled(groups) + Letters(p)
  {
    var all, n := AddPiece(groups, p), |groups| - 1;
    if Continues(groups, p.kind) {
      assert all[..n] == groups[..n];
      assert Letters(all[n]) == Letters(groups[n]) + Letters(p);
    } else {
      assert all[..|groups|] == groups;
    }
  }

  // Grouping loses nothing and reorders nothing, and what could be joined has been.
  lemma {:induction false} GroupedWhole(pieces: seq<Piece>)
    ensures Spelled(Grouped(pieces)) == Spelled(pieces)
    ensures forall i :: 0 < i < |Grouped(pieces)| ==> Grouped(pieces)[i - 1].kind != Grouped(pieces)[i].kind
  {
    if pieces != [] {
      var before := pieces[..|pieces| - 1];
      GroupedWhole(before);
      AddSpelled(Grouped(before), pieces[|pieces| - 1]);
    }
  }

  // Whether the last of the pieces, or of the groups, is of the given kind.
  predicate Continues(pieces: seq<Piece>, kind: Kind) {
    pieces != [] && pieces[|pieces| - 1].kind == kind
  }

  lemma {:induction false} LastOfGroup(pieces: seq<Piece>)
    ensures Grouped(pieces) == [] <==> pieces == []
    ensures forall kind :: Continues(Grouped(pieces), kind) <==> Continues(pieces, kind)
  {
  }

  // The order of the pieces of a message: its URL if it has one, then names, each with its value.
  predicate MayFollow(pieces: seq<Piece>, kind: Kind) {
    match kind
    case Url => pieces == [] || Continues(pieces, Url)
    case Field => true
    case Val => Continues(pieces, Field) || Continues(pieces, Val)
  }

  // Where in a buffer a group has been put together.
  datatype Region = Region(kind: Kind, from: nat, to: nat)

  predicate RegionOk(r: Region, g: Piece, buf: seq<byte>, p: nat) {
    r.kind == g.kind && r.from <= r.to <= p <= |buf| && buf[r.from..r.to] == g.text
  }

  // The i-th group lies before position p, after the one before it.
  predicate InPlace(items: seq<Region>, groups: seq<Piece>, buf: seq<byte>, p: nat, i: nat) {
    i < |items| && i < |groups| ==>
      RegionOk(items[i], groups[i], buf, p) && (i > 0 ==> items[i - 1].to <= items[i].from)
  }

  ghost predicate LaidOut(items: seq<Region>, groups: seq<Piece>, buf: seq<byte>, p: nat) {
    |items| == |groups| && p <= |buf| && forall i: nat :: InPlace(items, groups, buf, p, i)
  }

  lemma {:induction false} BeginRegion(
      items: seq<Region>, groups: seq<Piece>, buf: seq<byte>, p: nat, at: nat, len: nat, kind: Kind)
    requires LaidOut(items, groups, buf, p) && p <= at && at + len <= |buf|
    ensures LaidOut(items + [Region(kind, at, at + len)], groups + [Piece(kind, buf[at..at + len])], buf, at + len)
  {
    var its, gs := items + [Region(kind, at, at + len)], groups + [Piece(kind, buf[at..at + len])];
    var q := at + len;
    forall i: nat ensures InPlace(its, gs, buf, q, i) {
      assert InPlace(items, groups, buf, p, i);
      if i > 0 { assert InPlace(items, groups, buf, p, i - 1); }
    }
  }

  // A continued group is made contiguous; what the parser has yet to read stays as it was.
  lemma {:induction false} ExtendRegion(
      items: seq<Region>, groups: seq<Piece>, buf: seq<byte>, p: nat, at: nat, len: nat)
    requires LaidOut(items, groups, buf, p) && p <= at && at + len <= |buf| && items != []
    ensures var n := |items| - 1; var r, g := items[n], groups[n];
      && r.to <= at
      && LaidOut(items[..n] + [r.(to := r.to + len)], groups[..n] + [g.(text := g.text + buf[at..at + len])],
                 MovedLeft(buf, r.to, at, len), at + len)
      && MovedLeft(buf, r.to, at, len)[at + len..] == buf[at + len..]
  {
    var n := |items| - 1;
    var r, g := items[n], groups[n];
    assert InPlace(items, groups, buf, p, n);
    var after := MovedLeft(buf, r.to, at, len);
    var its, gs := items[..n] + [r.(to := r.to + len)], groups[..n] + [g.(text := g.text + buf[at..at + len])];
    var q := at + len;
    forall i: nat ensures InPlace(its, gs, after, q, i) {
      assert InPlace(items, groups, buf, p, i);
      if i < n {
        EndsBefore(items, groups, buf, p, i, n);
        assert after[items[i].from..items[i].to] == buf[items[i].from..items[i].to];
      } else if i == n {
        assert after[r.from..r.to + len] == buf[r.from..r.to] + buf[at..at + len];
      }
    }
    assert LaidOut(its, gs, after, q);
    assert after[q..] == buf[q..];
  }

  lemma {:induction false} EndsBefore(items: seq<Region>, groups: seq<Piece>, buf: seq<byte>, p: nat, i: nat, j: nat)
    requires LaidOut(items, groups, buf, p) && i < j < |items|
    ensures items[i].to <= items[j].from <= items[j].to
    decreases j
  {
    assert InPlace(items, groups, buf, p, j);
    if i + 1 < j {
      EndsBefore(items, groups, buf, p, i, j - 1);
    }
  }

  lemma {:induction false} LaidOutLater(
      items: seq<Region>, groups: seq<Piece>, buf: seq<byte>, p: nat, buf': seq<byte>, q: nat)
    requires LaidOut(items, groups, buf, p) && p <= q <= |buf'| && buf'[..p] == buf[..p]
    ensures LaidOut(items, groups, buf', q)
  {
    forall i: nat ensures InPlace(items, groups, buf', q, i) {
      assert InPlace(items, groups, buf, p, i);
      if i < |items| {
        assert buf'[items[i].from..items[i].to] == buf'[..p][items[i].from..items[i].to];
        assert buf[items[i].from..items[i].to] == buf[..p][items[i].from..items[i].to];
      }
    }
  }
}

/** Reading HTTP messages from a stream (src/http_reader.c), over any parser that takes in data from
    the front, hands out pieces of it on the way, and may pause or fail anywhere. */
module HttpReader {
  import opened Bytes
  import opened Growbuf
  import opened HttpPieces
  import opened Options
  import opened Sequences
  import opened Streams

  datatype ReaderState = PREBODY | BODY | EOM

  datatype PrebodyResult = CLOSED | DONE | WAITING | PROGRESS | ERROR

  // What http_parser_execute ends with: HPE_OK, HPE_PAUSED, or anything else.
  datatype Verdict = OK | PAUSED | FAILED

  // struct http_header_internal; the value is set later than the name.
  datatype Header = Header(name: nat, nameEnd: nat, value: nat, valueEnd: nat, hasValue: bool)

  function HeaderItems(h: Header): seq<Region> {
    [Region(Field, h.name, h.nameEnd)] + (if h.hasValue then [Region(Val, h.value, h.valueEnd)] else [])
  }

  // Where the URL, if there is one, and the headers have been put together.
  datatype Index = Index(hasUrl: bool, url: nat, urlEnd: nat, headers: seq<Header>)

  function Items(x: Index): seq<Region>
    decreases |x.headers|
  {
    if x.headers == [] then (if x.hasUrl then [Region(Url, x.url, x.urlEnd)] else [])
    else Items(x.(headers := x.headers[..|x.headers| - 1])) + HeaderItems(x.headers[|x.headers| - 1])
  }

  ghost predicate Indexed(x: Index, pieces: seq<Piece>, buf: seq<byte>, p: nat) {
    LaidOut(Items(x), Grouped(pieces), buf, p)
  }

  lemma {:induction false} ItemsLast(x: Index, h: Header)
    requires x.headers != []
    ensures var n := |x.headers| - 1; var before := Items(x.(headers := x.headers[..n]));
      && Items(x) == before + HeaderItems(x.headers[n])
      && Items(x.(headers := x.headers[n := h])) == before + HeaderItems(h)
  {
    assert x.headers[|x.headers| - 1 := h][..|x.headers| - 1] == x.headers[..|x.headers| - 1];
  }

  // The last group is the one last begun.
  lemma {:induction false} LastGroup(x: Index, pieces: seq<Piece>, buf: seq<byte>, p: nat)
    requires Indexed(x, pieces, buf, p)
    ensures var g, n := pieces, |x.headers| - 1;
      && (g == [] <==> x.headers == [] && !x.hasUrl)
      && (Continues(g, Url) <==> x.headers == [] && x.hasUrl)
      && (Continues(g, Field) <==> x.headers != [] && !x.headers[n].hasValue)
      && (Continues(g, Val) <==> x.headers != [] && x.headers[n].hasValue)
  {
    LastOfGroup(pieces);
    var items, g := Items(x), Grouped(pieces);
    if x.headers != [] || x.hasUrl {
      assert InPlace(items, g, buf, p, |items| - 1);
    }
  }

  // A group begins in x', whose last item is the piece itself.
  lemma {:induction false} Begins(
      x: Index, x': Index, pieces: seq<Piece>, buf: seq<byte>, p: nat, at: nat, len: nat, kind: Kind)
    requires Indexed(x, pieces, buf, p) && p <= at && at + len <= |buf|
    requires !Continues(pieces, kind) && Items(x') == Items(x) + [Region(kind, at, at + len)]
    ensures Indexed(x', pieces + [Piece(kind, buf[at..at + len])], buf, at + len)
  {
    LastOfGroup(pieces);
    BeginRegion(Items(x), Grouped(pieces), buf, p, at, len, kind);
    GroupedSnoc(pieces, Piece(kind, buf[at..at + len]));
  }

  // The last group goes on in x', whose last item is longer by the piece.
  lemma {:induction false} GoesOn(
      x: Index, x': Index, pieces: seq<Piece>, buf: seq<byte>, p: nat, at: nat, len: nat, kind: Kind)
    requires Indexed(x, pieces, buf, p) && p <= at && at + len <= |buf|
    requires Continues(pieces, kind) && Longer(Items(x), Items(x'), len)
    ensures var to := Items(x)[|Items(x)| - 1].to;
      && to <= at
      && Indexed(x', pieces + [Piece(kind, buf[at..at + len])], MovedLeft(buf, to, at, len), at + len)
      && MovedLeft(buf, to, at, len)[at + len..] == buf[at + len..]
  {
    LastItem(x, pieces, buf, p, kind);
    ExtendRegion(Items(x), Grouped(pieces), buf, p, at, len);
    GroupGoesOn(pieces, Piece(kind, buf[at..at + len]));
  }

  lemma {:induction false} LastItem(x: Index, pieces: seq<Piece>, buf: seq<byte>, p: nat, kind: Kind)
    requires Indexed(x, pieces, buf, p) && Continues(pieces, kind)
    ensures |Items(x)| == |Grouped(pieces)| > 0 && Items(x)[|Items(x)| - 1].kind == kind
  {
    LastOfGroup(pieces);
    assert InPlace(Items(x), Grouped(pieces), buf, p, |Items(x)| - 1);
  }

  lemma {:induction false} UrlBegins(x: Index, pieces: seq<Piece>, buf: seq<byte>, p: nat, at: nat, len: nat)
    requires Indexed(x, pieces, buf, p) && p <= at && at + len <= |buf|
    requires !x.hasUrl && MayFollow(pieces, Url)
    ensures Indexed(x.(hasUrl := true, url := at, urlEnd := at + len), pieces + [Piece(Url, buf[at..at + len])], buf,
      at + len)
  {
    LastGroup(x, pieces, buf, p);
    Begins(x, x.(hasUrl := true, url := at, urlEnd := at + len), pieces, buf, p, at, len, Url);
  }

  lemma {:induction false} UrlGoesOn(x: Index, pieces: seq<Piece>, buf: seq<byte>, p: nat, at: nat, len: nat)
    requires Indexed(x, pieces, buf, p) && p <= at && at + len <= |buf|
    requires x.hasUrl && MayFollow(pieces, Url)
    ensures x.urlEnd <= at
    ensures var after := MovedLeft(buf, x.urlEnd, at, len);
      && Indexed(x.(urlEnd := x.urlEnd + len), pieces + [Piece(Url, buf[at..at + len])], after, at + len)
      && after[at + len..] == buf[at + len..]
  {
    LastGroup(x, pieces, buf, p);
    GoesOn(x, x.(urlEnd := x.urlEnd + len), pieces, buf, p, at, len, Url);
  }

  lemma {:induction false} FieldBegins(x: Index, pieces: seq<Piece>, buf: seq<byte>, p: nat, at: nat, len: nat)
    requires Indexed(x, pieces, buf, p) && p <= at && at + len <= |buf| && !Continues(pieces, Field)
    ensures Indexed(WithNew(x, Header(at, at + len, 0, 0, false)), pieces + [Piece(Field, buf[at..at + len])], buf,
      at + len)
  {
    var h := Header(at, at + len, 0, 0, false);
    assert (x.headers + [h])[..|x.headers|] == x.headers;
    Begins(x, WithNew(x, h), pieces, buf, p, at, len, Field);
  }

  lemma {:induction false} ValueBegins(x: Index, pieces: seq<Piece>, buf: seq<byte>, p: nat, at: nat, len: nat)
    requires Indexed(x, pieces, buf, p) && p <= at && at + len <= |buf| && Continues(pieces, Field)
    ensures x.headers != []
    ensures Indexed(WithLast(x, LastHeader(x).(value := at, valueEnd := at + len, hasValue := true)),
                    pieces + [Piece(Val, buf[at..at + len])], buf, at + len)
  {
    LastGroup(x, pieces, buf, p);
    var h := LastHeader(x).(value := at, valueEnd := at + len, hasValue := true);
    ItemsLast(x, h);
    Begins(x, WithLast(x, h), pieces, buf, p, at, len, Val);
  }

  lemma {:induction false} FieldGoesOn(x: Index, pieces: seq<Piece>, buf: seq<byte>, p: nat, at: nat, len: nat)
    requires Indexed(x, pieces, buf, p) && p <= at && at + len <= |buf| && Continues(pieces, Field)
    ensures x.headers != [] && LastHeader(x).nameEnd <= at
    ensures var h := LastHeader(x); var after := MovedLeft(buf, h.nameEnd, at, len);
      && Indexed(WithLast(x, h.(nameEnd := h.nameEnd + len)), pieces + [Piece(Field, buf[at..at + len])], after,
        at + len)
      && after[at + len..] == buf[at + len..]
  {
    LastGroup(x, pieces, buf, p);
    var h := LastHeader(x).(nameEnd := LastHeader(x).nameEnd + len);
    ItemsLast(x, h);
    GoesOn(x, WithLast(x, h), pieces, buf, p, at, len, Field);
  }

  lemma {:induction false} ValueGoesOn(x: Index, pieces: seq<Piece>, buf: seq<byte>, p: nat, at: nat, len: nat)
    requires Indexed(x, pieces, buf, p) && p <= at && at + len <= |buf| && Continues(pieces, Val)
    ensures x.headers != [] && LastHeader(x).valueEnd <= at
    ensures var h := LastHeader(x); var after := MovedLeft(buf, h.valueEnd, at, len);
      && Indexed(WithLast(x, h.(valueEnd := h.valueEnd + len)), pieces + [Piece(Val, buf[at..at + len])], after,
        at + len)
      && after[at + len..] == buf[at + len..]
  {
    LastGroup(x, pieces, buf, p);
    var h := LastHeader(x).(valueEnd := LastHeader(x).valueEnd + len);
    ItemsLast(x, h);
    GoesOn(x, WithLast(x, h), pieces, buf, p, at, len, Val);
  }

  function LastHeader(x: Index): Header
    requires x.headers != []
  {
    x.headers[|x.headers| - 1]
  }

  function WithNew(x: Index, h: Header): Index {
    x.(headers := x.headers + [h])
  }

  function WithLast(x: Index, h: Header): Index
    requires x.headers != []
  {
    x.(headers := x.headers[|x.headers| - 1 := h])
  }

  // What has been put together is where the index says.
  lemma {:induction false} ReadsBack(x: Index, pieces: seq<Piece>, buf: seq<byte>, p: nat, i: nat)
    requires Indexed(x, pieces, buf, p) && i < |Items(x)|
    ensures |Items(x)| == |Grouped(pieces)|
    ensures var r := Items(x)[i]; r.from <= r.to <= |buf| && Grouped(pieces)[i] == Piece(r.kind, buf[r.from..r.to])
  {
    assert InPlace(Items(x), Grouped(pieces), buf, p, i);
  }

  predicate Longer(items: seq<Region>, items': seq<Region>, len: nat) {
    items != [] && items' == items[..|items| - 1] + [items[|items| - 1].(to := items[|items| - 1].to + len)]
  }

  // How a call of http_reader_body ends.  Refused: the stream had nothing to give (what its read
  // returned is `res`).  Failed: the parser did not like the data, in `prebody` (early) or later.
  datatype Ending = Done | AtEnd | NoRoom | Refused(res: int) | Failed(early: bool)

  // What the parser makes of a message.  Nothing is said of it in general; one of the simple ones takes
  // `head` bytes for the head, of which it hands out nothing, and either takes all that follows for the
  // body, and hands it out as it gets it, or has no body.
  datatype Parser = Unknown | UntilEnd(head: nat) | Bodyless(head: nat)

  // How things stand when http_reader_prebody is called: `left` is what the parser has not been given yet.
  datatype Start = Start(fed: seq<byte>, left: seq<byte>, data: seq<byte>, cont: bool)

  // What a call of http_reader_body meets: what the parser said last of what lay in `prebody`, where the
  // body data from there ended, the stream's answer if it was asked, and what the parser said of that.
  datatype Course = Course(drain: Verdict, copied: nat, answer: Option<int>, late: Verdict)

  // The parser found no fault, the stream gave something if asked, and the body was not at its end already.
  predicate WentWell(c: Course) {
    c.drain != FAILED && c.late != FAILED && !NothingGiven(c.answer) && (c.drain == PAUSED ==> c.copied > 0)
  }

  const NOTHING_MET := Course(OK, 0, None, OK)

  predicate NothingGiven(answer: Option<int>) {
    answer == Some(STREAM_WAITING) || answer == Some(STREAM_ERROR) || answer == Some(0)
  }

  // How the parser, the caller's buffer and the accounts stood when it was given src[from..stop].
  datatype Pass = Pass(
    from: nat, stop: nat, bodyEnd: nat, text: seq<byte>, held: seq<byte>, emitted: seq<byte>, fed: seq<byte>)

  class Reader {
    const stream: Source
    const prebody: Growbuf
    var state: ReaderState
    var parsed: nat
    var url: nat
    var urlEnd: nat
    var headers: seq<Header>
    var urlCont: bool             // settings.on_url == on_url_cont, and so on
    var fieldCont: bool
    var valueCont: bool

    const parser: Parser

    ghost const all: seq<byte>    // everything the stream delivers
    ghost var fed: seq<byte>      // everything the parser has taken in
    ghost var hasUrl: bool
    ghost var pieces: seq<Piece>  // what it has handed out of the current message
    ghost var emitted: seq<byte>  // all the body data it has handed out

    // http_reader_init
    constructor (s: Source, parser: Parser)
      ensures Valid() && stream == s && all == s.data && state == PREBODY && fed == [] && emitted == []
      ensures parsed == 0 && prebody.Contents() == [] && prebody.buf.Length == 1000 && this.parser == parser
      ensures pieces == []
      ensures !urlCont && !fieldCont && !valueCont && Items(Located()) == []
      ensures fresh(prebody) && fresh(prebody.buf)
    {
      stream, this.parser := s, parser;
      prebody := new Growbuf(1000);
      state, parsed, url, urlEnd, headers := PREBODY, 0, *, *, [];
      urlCont, fieldCont, valueCont := false, false, false;
      all, fed, hasUrl, pieces, emitted := s.data, [], false, [], [];
    }

    // Every byte read from the stream has been fed to the parser, or lies in `prebody` from `parsed`
    // on.  The URL and the headers that have been put together are what the pieces add up to.
    ghost predicate Valid()
      reads this, stream, prebody, prebody.buf
    {
      && prebody.Valid() && !prebody.frozen && parsed <= prebody.end
      && all == fed + prebody.Contents()[parsed..] + stream.data
      && Assembled(parsed)
      && (state == PREBODY ==> Settings())
      && (state != PREBODY ==> !urlCont && !fieldCont && !valueCont)
    }

    ghost predicate Assembled(p: nat)
      requires prebody.Valid()
      reads this`url, this`urlEnd, this`headers, this`hasUrl, this`pieces, prebody, prebody.buf
    {
      Indexed(Located(), pieces, prebody.Contents(), p)
    }

    ghost function Located(): Index
      reads this`url, this`urlEnd, this`headers, this`hasUrl, this`pieces
    {
      Index(hasUrl, url, urlEnd, headers)
    }

    // The callbacks in force tell what kind of piece came last.
    ghost predicate Settings()
      reads this
    {
      && urlCont == hasUrl
      && (fieldCont <==> Continues(pieces, Field))
      && (valueCont <==> Continues(pieces, Val))
    }

    // A piece at `at` may be handed out, all earlier ones having been dealt with before position p.
    ghost predicate Ready(kind: Kind, p: nat, at: nat, len: nat)
      reads this, prebody, prebody.buf
    {
      && prebody.Valid() && Assembled(p) && Settings() && p <= at && at + len <= prebody.end
      && MayFollow(pieces, kind)
    }

    // It has been dealt with, and nothing that the parser has yet to read has been touched.
    twostate predicate Handled(kind: Kind, at: nat, len: nat)
      requires old(prebody.Valid()) && at + len <= old(prebody.end)
      reads this, prebody, prebody.buf
    {
      && prebody.Valid() && Assembled(at + len) && Settings()
      && pieces == old(pieces) + [Piece(kind, old(prebody.Contents())[at..at + len])]
      && prebody.Contents()[at + len..] == old(prebody.Contents())[at + len..]
    }

    lemma {:induction false} Reassembled(x: Index, ps: seq<Piece>, text: seq<byte>, p: nat)
      requires prebody.Valid() && Located() == x && pieces == ps && prebody.Contents() == text
      requires Indexed(x, ps, text, p)
      ensures Assembled(p)
    {
    }

    // on_url
    method OnUrl(at: nat, len: nat, ghost p: nat)
      requires Ready(Url, p, at, len) && !urlCont
      modifies this`url, this`urlEnd, this`urlCont, this`hasUrl, this`pieces
      ensures Handled(Url, at, len)
    {
      ghost var text := prebody.Contents();
      ghost var piece := Piece(Url, text[at..at + len]);
      UrlBegins(Located(), pieces, text, p, at, len);
      ghost var x, ps := Located().(hasUrl := true, url := at, urlEnd := at + len), pieces + [piece];
      url, urlEnd, urlCont := at, at + len, true;
      hasUrl := true;
      pieces := ps;
      Reassembled(x, ps, text, at + len);
    }

    // on_url_cont
    method OnUrlCont(at: nat, len: nat, ghost p: nat)
      requires Ready(Url, p, at, len) && urlCont
      modifies this`urlEnd, this`pieces, prebody.buf
      ensures Handled(Url, at, len)
    {
      ghost var text := prebody.Contents();
      ghost var piece := Piece(Url, text[at..at + len]);
      UrlGoesOn(Located(), pieces, text, p, at, len);
      ghost var x, ps := Located().(urlEnd := urlEnd + len), pieces + [piece];
      ghost var after := MovedLeft(text, urlEnd, at, len);
      prebody.Memmove(urlEnd, at, len);
      urlEnd := urlEnd + len;
      pieces := ps;
      Reassembled(x, ps, after, at + len);
    }

    // on_header_field
    method OnHeaderField(at: nat, len: nat, ghost p: nat)
      requires Ready(Field, p, at, len) && !fieldCont
      modifies this`headers, this`pieces, this`fieldCont, this`valueCont
      ensures Handled(Field, at, len)
    {
      ghost var text := prebody.Contents();
      ghost var piece := Piece(Field, text[at..at + len]);
      FieldBegins(Located(), pieces, text, p, at, len);
      var h := Header(at, at + len, 0, 0, false);
      ghost var x, ps := WithNew(Located(), h), pieces + [piece];
      headers := headers + [h];
      fieldCont, valueCont := true, false;
      pieces := ps;
      Reassembled(x, ps, text, at + len);
    }

    // on_header_field_cont
    method OnHeaderFieldCont(at: nat, len: nat, ghost p: nat)
      requires Ready(Field, p, at, len) && fieldCont
      modifies this`headers, this`pieces, prebody.buf
      ensures Handled(Field, at, len)
    {
      ghost var text := prebody.Contents();
      ghost var piece := Piece(Field, text[at..at + len]);
      FieldGoesOn(Located(), pieces, text, p, at, len);
      var n := |headers| - 1;
      var h := headers[n].(nameEnd := headers[n].nameEnd + len);
      ghost var x, ps := WithLast(Located(), h), pieces + [piece];
      ghost var after := MovedLeft(text, headers[n].nameEnd, at, len);
      prebody.Memmove(headers[n].nameEnd, at, len);
      headers := headers[n := h];
      pieces := ps;
      Reassembled(x, ps, after, at + len);
    }

    // on_header_value
    method OnHeaderValue(at: nat, len: nat, ghost p: nat)
      requires Ready(Val, p, at, len) && !valueCont
      modifies this`headers, this`pieces, this`fieldCont, this`valueCont
      ensures Handled(Val, at, len)
    {
      ghost var text := prebody.Contents();
      ghost var piece := Piece(Val, text[at..at + len]);
      ValueBegins(Located(), pieces, text, p, at, len);
      var n := |headers| - 1;
      var h := headers[n].(value := at, valueEnd := at + len, hasValue := true);
      ghost var x, ps := WithLast(Located(), h), pieces + [piece];
      headers := headers[n := h];
      fieldCont, valueCont := false, true;
      pieces := ps;
      Reassembled(x, ps, text, at + len);
    }

    // on_header_value_cont
    method OnHeaderValueCont(at: nat, len: nat, ghost p: nat)
      requires Ready(Val, p, at, len) && valueCont
      modifies this`headers, this`pieces, prebody.buf
      ensures Handled(Val, at, len)
    {
      ghost var text := prebody.Contents();
      ghost var piece := Piece(Val, text[at..at + len]);
      ValueGoesOn(Located(), pieces, text, p, at, len);
      var n := |headers| - 1;
      var h := headers[n].(valueEnd := headers[n].valueEnd + len);
      ghost var x, ps := WithLast(Located(), h), pieces + [piece];
      ghost var after := MovedLeft(text, headers[n].valueEnd, at, len);
      prebody.Memmove(headers[n].valueEnd, at, len);
      headers := headers[n := h];
      pieces := ps;
      Reassembled(x, ps, after, at + len);
    }

    // The parser hands out a piece, through the callback in force.
    method OnPiece(kind: Kind, at: nat, len: nat, ghost p: nat)
      requires Ready(kind, p, at, len)
      modifies this`url, this`urlEnd, this`headers, this`urlCont, this`fieldCont, this`valueCont,
               this`hasUrl, this`pieces, prebody.buf
      ensures Handled(kind, at, len)
    {
      match kind
      case Url => if urlCont { OnUrlCont(at, len, p); } else { OnUrl(at, len, p); }
      case Field => if fieldCont { OnHeaderFieldCont(at, len, p); } else { OnHeaderField(at, len, p); }
      case Val => if valueCont { OnHeaderValueCont(at, len, p); } else { OnHeaderValue(at, len, p); }
    }

    // The pieces that may come next.
    predicate Expected(kind: Kind)
      reads this
    {
      match kind
      case Url => headers == []
      case Field => true
      case Val => fieldCont || valueCont
    }

    lemma {:induction false} ExpectedMayFollow(kind: Kind, p: nat)
      requires prebody.Valid() && Assembled(p) && Settings() && Expected(kind)
      ensures MayFollow(pieces, kind)
    {
      LastGroup(Located(), pieces, prebody.Contents(), p);
    }

    // The parser has read the bytes before pos, as they were in `text`, and the others are as they were.
    ghost predicate HasRead(pos: nat, text: seq<byte>, before: seq<byte>)
      reads this`url, this`urlEnd, this`headers, this`hasUrl, this`pieces, this`parsed, this`fed, prebody, prebody.buf
    {
      && prebody.Valid() && parsed <= pos <= prebody.end == |text| && Assembled(pos)
      && prebody.Contents()[pos..] == text[pos..] && fed == before + text[parsed..pos]
    }

    ghost predicate Reading(pos: nat, text: seq<byte>, before: seq<byte>)
      reads this, prebody, prebody.buf
    {
      HasRead(pos, text, before) && state == PREBODY && Settings()
    }

    // It reads on, up to `stop`.
    method Read(pos: nat, stop: nat, ghost text: seq<byte>, ghost before: seq<byte>)
      requires Reading(pos, text, before) && pos <= stop <= prebody.end
      modifies this`fed
      ensures Reading(stop, text, before)
    {
      Feed(pos, stop, text, before);
      LaidOutLater(Items(Located()), Grouped(pieces), prebody.Contents(), pos, prebody.Contents(), stop);
      fed := fed + prebody.Contents()[pos..stop];
      assert prebody.Contents()[stop..] == prebody.Contents()[pos..][stop - pos..];
      assert text[stop..] == text[pos..][stop - pos..];
    }

    lemma {:induction false} Feed(pos: nat, end: nat, text: seq<byte>, before: seq<byte>)
      requires prebody.Valid() && parsed <= pos <= end <= prebody.end == |text|
      requires prebody.Contents()[pos..] == text[pos..] && fed == before + text[parsed..pos]
      ensures fed + prebody.Contents()[pos..end] == before + text[parsed..end]
    {
      assert prebody.Contents()[pos..end] == prebody.Contents()[pos..][..end - pos] == text[pos..end];
      assert text[parsed..end] == text[parsed..pos] + text[pos..end];
    }

    // It hands out the piece from `at` to pos, where it has got to; q is where it stood before.
    method HandOut(kind: Kind, at: nat, pos: nat, ghost q: nat, ghost text: seq<byte>, ghost before: seq<byte>)
      requires Reading(pos, text, before) && Expected(kind) && q <= at <= pos && Assembled(q)
      modifies this`url, this`urlEnd, this`headers, this`urlCont, this`fieldCont, this`valueCont,
               this`hasUrl, this`pieces, prebody.buf
      ensures Reading(pos, text, before)
    {
      ExpectedMayFollow(kind, q);
      OnPiece(kind, at, pos - at, q);
    }

    method ReadPieces(ghost text: seq<byte>, ghost before: seq<byte>) returns (pos: nat)
      requires Reading(parsed, text, before)
      modifies this`url, this`urlEnd, this`headers, this`urlCont, this`fieldCont, this`valueCont,
               this`hasUrl, this`pieces, this`fed, prebody.buf
      ensures Reading(pos, text, before)
    {
      var steps: nat := *;
      pos := parsed;
      while steps > 0
        invariant Reading(pos, text, before)
      {
        var end: nat :| pos <= end <= prebody.end;
        var at: nat :| pos <= at <= end;
        var kind: Kind := *;
        ghost var q := pos;
        assert Assembled(q);
        Read(pos, end, text, before);
        pos := end;
        if Expected(kind) {
          HandOut(kind, at, pos, q, text, before);
        }
        steps := steps - 1;
      }
    }

    method ReadMessage(n: nat) returns (pos: nat, verdict: Verdict)
      requires Valid() && state == PREBODY && parsed + n == prebody.end
      modifies this`url, this`urlEnd, this`headers, this`urlCont, this`fieldCont, this`valueCont,
               this`hasUrl, this`pieces, this`fed, prebody.buf
      ensures Reading(pos, old(prebody.Contents()), old(fed))
      ensures parser != Unknown && parser.head <= n && !old(fieldCont) ==>
        pos == parsed + parser.head && verdict == PAUSED && !fieldCont
    {
      ghost var text, before := prebody.Contents(), fed;
      Neutral(fed);
      if parser != Unknown && parser.head <= n && !fieldCont {
        pos, verdict := parsed + parser.head, PAUSED;
        Read(parsed, pos, text, before);
      } else {
        pos := ReadPieces(text, before);
        verdict := *;
      }
    }

    // http_parser_execute on the n bytes from `parsed` on: it reads them from front to back, handing
    // out pieces as it comes to them, and may stop early.  What it reads is what the stream delivered,
    // although the callbacks write to the same buffer.
    method Execute(n: nat) returns (consumed: nat, verdict: Verdict)
      requires Valid() && state == PREBODY && parsed + n == prebody.end
      modifies this`state, this`url, this`urlEnd, this`headers, this`urlCont, this`fieldCont, this`valueCont,
               this`hasUrl, this`pieces, this`fed, prebody.buf
      ensures consumed <= n && (verdict == OK && n > 0 ==> consumed > 0)
      ensures HasRead(parsed + consumed, old(prebody.Contents()), old(fed))
      ensures verdict == PAUSED ==> state == BODY && !urlCont && !fieldCont && !valueCont
      ensures verdict != PAUSED ==> state == PREBODY && Settings()
      ensures parser != Unknown && parser.head <= n && !old(fieldCont) ==> consumed == parser.head && verdict == PAUSED
    {
      var pos;
      pos, verdict := ReadMessage(n);
      consumed := pos - parsed;
      // Without progress it does not say that all is well, and a name without a value does not end
      // the headers.
      if (verdict == OK && n > 0 && consumed == 0) || (verdict == PAUSED && fieldCont) {
        verdict := FAILED;
      }
      if verdict == PAUSED {
        OnHeadersComplete();
      }
    }

    // on_headers_complete, which pauses the parser
    method OnHeadersComplete()
      modifies this`state, this`urlCont, this`valueCont
      ensures state == BODY && !urlCont && !valueCont
    {
      state := BODY;
      urlCont := false;
      valueCont := false;
    }

    // The cleaning up after the message before.
    method CleanUp()
      requires Valid() && state == EOM
      modifies this`state, this`headers, this`parsed, this`hasUrl, this`pieces, prebody`end, prebody.buf
      ensures Valid() && state == PREBODY && parsed == 0 && pieces == []
      ensures prebody.Contents() == old(prebody.Contents())[old(parsed)..] && prebody.end == old(prebody.end - parsed)
    {
      prebody.Shift(parsed);
      headers, parsed, state := [], 0, PREBODY;
      hasUrl, pieces := false, [];
    }

    // Room is made, and the stream asked to fill it.
    method Refill() returns (rlen: int)
      requires Valid() && state == PREBODY
      modifies prebody`buf, prebody`end, prebody.buf, stream
      ensures Valid() && (prebody.buf == old(prebody.buf) || fresh(prebody.buf))
      ensures STREAM_END <= rlen && prebody.end == old(prebody.end) + (if rlen > 0 then rlen else 0)
      ensures prebody.Contents()[..old(prebody.end)] == old(prebody.Contents())
      ensures if rlen > 0 then |stream.data| < |old(stream.data)| else stream.data == old(stream.data)
      ensures rlen == 0 ==> stream.patience < old(stream.patience)
      ensures rlen == STREAM_END ==> stream.data == []
      ensures Reliable(stream.manner) ==> rlen != STREAM_ERROR
      ensures stream.manner == Willing ==> rlen != STREAM_WAITING
      ensures stream.manner == Silent ==> if old(stream.data) == [] then rlen == STREAM_WAITING else rlen > 0
      ensures stream.manner == Silent && 0 < |old(stream.data)| <= 100 ==>
        rlen == |old(stream.data)| && stream.data == []
    {
      prebody.Reserve(100);
      var bytes: seq<byte>;
      ghost var text := prebody.Contents();
      rlen, bytes := stream.Read(prebody.buf.Length - prebody.end);
      if rlen > 0 {
        Received(fed, text, parsed, bytes, stream.data);
        LaidOutLater(Items(Located()), Grouped(pieces), text, parsed, text + bytes, parsed);
        prebody.Receive(bytes);
      }
    }

    static lemma {:induction false} Received(
        fed: seq<byte>, text: seq<byte>, parsed: nat, bytes: seq<byte>, data: seq<byte>)
      requires parsed <= |text|
      ensures fed + text[parsed..] + (bytes + data) == fed + (text + bytes)[parsed..] + data
    {
      assert (text + bytes)[parsed..] == text[parsed..] + bytes;
    }

    // One pass of the parser over what is in the buffer.
    method Parse() returns (consumed: nat, verdict: Verdict)
      requires Valid() && state == PREBODY
      modifies this`state, this`url, this`urlEnd, this`headers, this`urlCont, this`fieldCont, this`valueCont,
               this`hasUrl, this`pieces, this`fed, this`parsed, prebody.buf
      ensures Valid() && parsed == old(parsed) + consumed && state == if verdict == PAUSED then BODY else PREBODY
      ensures fed == old(fed) + old(prebody.Contents())[old(parsed)..parsed]
      ensures verdict == OK && consumed == 0 ==> parsed == prebody.end
      ensures parser != Unknown && parser.head <= prebody.end - old(parsed) && !old(fieldCont) ==>
        consumed == parser.head && verdict == PAUSED
    {
      ghost var text, before := prebody.Contents(), fed;
      consumed, verdict := Execute(prebody.end - parsed);
      Consumed(before, text, prebody.Contents(), parsed, consumed, stream.data);
      parsed := parsed + consumed;
    }

    static lemma {:induction false} Consumed(
        fed: seq<byte>, text: seq<byte>, after: seq<byte>, parsed: nat, consumed: nat, data: seq<byte>)
      requires parsed + consumed <= |text| == |after| && after[parsed + consumed..] == text[parsed + consumed..]
      ensures fed + text[parsed..] + data == (fed + text[parsed..parsed + consumed]) + after[parsed + consumed..] + data
    {
      assert text[parsed..] == text[parsed..parsed + consumed] + text[parsed + consumed..];
    }

    // The inner loop of http_reader_prebody: the parser goes over the buffer until it is empty
    // (None) or there is a result.
    method ParseAll() returns (result: Option<PrebodyResult>)
      requires Valid() && state == PREBODY
      modifies this`state, this`url, this`urlEnd, this`headers, this`urlCont, this`fieldCont, this`valueCont,
               this`hasUrl, this`pieces, this`fed, this`parsed, prebody.buf
      ensures Valid() && state == if result == Some(DONE) then BODY else PREBODY
      ensures result == None ==> old(parsed) < parsed == prebody.end
      ensures result.Some? ==>
        result.value == DONE || result.value == ERROR || (result.value == CLOSED && parsed == prebody.end)
      ensures |fed| >= |old(fed)| && (result == None ==> |fed| > |old(fed)|)
      ensures parser != Unknown && parser.head <= prebody.end - old(parsed) && !old(fieldCont) ==>
        result == Some(DONE) && parsed == old(parsed) + parser.head
    {
      while true
        invariant Valid() && state == PREBODY && old(parsed) <= parsed && |fed| == |old(fed)| + (parsed - old(parsed))
        invariant parser != Unknown && parser.head <= prebody.end - old(parsed) && !old(fieldCont) ==>
          parsed == old(parsed) && !fieldCont
        decreases prebody.end - parsed
      {
        var consumed, verdict := Parse();
        if verdict == FAILED { return Some(ERROR); }
        if verdict == PAUSED { return Some(DONE); }
        if consumed == 0 { return Some(CLOSED); }
        if parsed == prebody.end { return None; }
      }
    }

    // What is so from the beginning of a call to its end; `first` is 0 until the stream has answered.
    ghost predicate Heard(was: Start, first: int, looked: bool)
      reads this, prebody, prebody.buf, stream
    {
      && prebody.Valid() && parsed <= prebody.end
      && (looked <==> first != 0 && first != STREAM_WAITING && first != STREAM_ERROR)
      && (!looked ==>
            && fed == was.fed && stream.data == was.data && prebody.Contents()[parsed..] == was.left
            && fieldCont == was.cont)
      && (first > 0 ==> |stream.data| < |was.data|) && (first == STREAM_END ==> stream.data == [])
      && (Reliable(stream.manner) ==> first != STREAM_ERROR)
      && (stream.manner == Willing ==> first != STREAM_WAITING)
      && (stream.manner == Silent && first != 0 ==> if was.data == [] then first == STREAM_WAITING else first > 0)
      && (stream.manner == Silent && first != 0 && 0 < |was.data| <= 100 ==> first == |was.data| && stream.data == [])
    }

    // The parser is a simple one and has a whole head before it.
    predicate HasHead(was: Start, first: int) {
      first > 0 && parser != Unknown && parser.head <= |was.left| + first && !was.cont
    }

    // What is so between two turns of its loop.
    ghost predicate Underway(was: Start, result: PrebodyResult, first: int, looked: bool)
      reads this, prebody, prebody.buf, stream
    {
      && Valid() && state == PREBODY && Heard(was, first, looked) && (first == 0 || looked)
      && (result == WAITING || (result == PROGRESS && first != 0))
      && (looked ==> |fed| > |was.fed| && !HasHead(was, first))
      && (looked && result == WAITING ==> first == STREAM_END)
    }

    // One turn of it.
    method Turn(result0: PrebodyResult, ghost first0: int, ghost looked0: bool, ghost was: Start)
      returns (result: PrebodyResult, over: bool, ghost first: int, ghost looked: bool)
      requires Underway(was, result0, first0, looked0)
      modifies this`state, this`url, this`urlEnd, this`headers, this`urlCont, this`fieldCont, this`valueCont,
               this`hasUrl, this`pieces, this`fed, this`parsed, prebody`buf, prebody`end, prebody.buf, stream
      ensures Valid() && (prebody.buf == old(prebody.buf) || fresh(prebody.buf)) && Heard(was, first, looked)
      ensures !over ==> Underway(was, result, first, looked) && Onward()
      ensures over ==> state == (if result == DONE then BODY else PREBODY) && Ended(was, result, first, looked)
    {
      result, over, first, looked := result0, true, first0, looked0;
      ghost var text, left := prebody.Contents(), prebody.Contents()[parsed..];
      var rlen := Refill();
      assert rlen <= 0 ==> prebody.Contents() == text;
      if first == 0 { first := rlen; }
      if rlen == STREAM_WAITING { return; }
      if rlen == STREAM_ERROR { result := ERROR; return; }
      if rlen == 0 { over := false; return; }
      if rlen > 0 {
        result := PROGRESS;
      }
      looked := true;
      var done := ParseAll();
      if done.Some? { result := done.value; } else { over := false; }
    }

    // It may go on for so long only.
    twostate predicate Onward()
      requires old(prebody.Valid()) && old(parsed <= prebody.end) && prebody.Valid() && parsed <= prebody.end
      reads this, prebody, prebody.buf, stream
    {
      || |stream.data| < old(|stream.data|)
      || (stream.data == old(stream.data) &&
            (prebody.end - parsed < old(prebody.end - parsed)
             || (prebody.end - parsed == old(prebody.end - parsed) && stream.patience < old(stream.patience))))
    }

    // What the call comes to in the end.
    ghost predicate Ended(was: Start, result: PrebodyResult, first: int, looked: bool)
      reads this`fed, stream
    {
      && first != 0
      && (!looked ==> result == if first == STREAM_WAITING then WAITING else ERROR)
      && (looked ==> |fed| > |was.fed| || result == DONE || result == CLOSED || result == ERROR)
      && (result == WAITING ==> first == STREAM_WAITING || (first == STREAM_END && stream.data == []))
      && (stream.manner == Willing ==> result != WAITING && result != PROGRESS)
      && (HasHead(was, first) ==> result == DONE && |fed| == |was.fed| + parser.head)
    }

    // http_reader_prebody.  `first` is the first answer of the stream that is not 0.  Data left over from
    // the message before is looked at exactly if that is neither to wait nor an error.
    method Prebody() returns (result: PrebodyResult, ghost first: int, ghost looked: bool)
      requires Valid() && state != BODY
      modifies this, prebody, prebody.buf, stream
      ensures Valid() && (prebody.buf == old(prebody.buf) || fresh(prebody.buf))
      ensures state == if result == DONE then BODY else PREBODY
      ensures looked <==> first != STREAM_WAITING && first != STREAM_ERROR
      ensures !looked ==>
        && result == (if first == STREAM_WAITING then WAITING else ERROR) && stream.data == old(stream.data)
        && fed == old(fed) && prebody.Contents()[parsed..] == old(prebody.Contents()[parsed..])
      ensures looked ==> |fed| > |old(fed)| || result == DONE || result == CLOSED || result == ERROR
      ensures result == WAITING ==> first == STREAM_WAITING || (first == STREAM_END && stream.data == [])
      ensures first > 0 ==> |stream.data| < |old(stream.data)|
      // What the stream may answer.
      ensures Reliable(stream.manner) ==> first != STREAM_ERROR
      ensures stream.manner == Willing ==> result != WAITING && result != PROGRESS
      ensures stream.manner == Silent ==> if old(stream.data) == [] then first == STREAM_WAITING else first > 0
      ensures stream.manner == Silent && 0 < |old(stream.data)| <= 100 ==>
        first == |old(stream.data)| && stream.data == []
      ensures HasHead(old(Beginning()), first) ==> result == DONE && |fed| == |old(fed)| + parser.head
    {
      ghost var was := Beginning();
      if state == EOM {
        CleanUp();
      }
      var over := false;
      result, first, looked := WAITING, 0, false;
      while !over
        invariant Valid() && Heard(was, first, looked) && (prebody.buf == old(prebody.buf) || fresh(prebody.buf))
        invariant !over ==> Underway(was, result, first, looked)
        invariant over ==> state == (if result == DONE then BODY else PREBODY) && Ended(was, result, first, looked)
        decreases !over, |stream.data|, prebody.end - parsed, stream.patience
      {
        result, over, first, looked := Turn(result, first, looked, was);
      }
    }

    ghost function Beginning(): Start
      requires Valid()
      reads this, prebody, prebody.buf, stream
    {
      Start(fed, prebody.Contents()[parsed..], stream.data, fieldCont)
    }

    // on_body: a piece of the body at `at` joins what the caller's buffer holds already.
    method OnBody(src: array<byte>, at: nat, len: nat, buf: array<byte>, bodyEnd: nat)
      requires at + len <= src.Length && bodyEnd + len <= buf.Length && (src == buf ==> bodyEnd <= at)
      modifies buf, this`emitted
      ensures emitted == old(emitted) + old(src[at..at + len])
      ensures buf[..bodyEnd + len] == old(buf[..bodyEnd]) + old(src[at..at + len])
      ensures buf[bodyEnd + len..] == old(buf[bodyEnd + len..])
    {
      emitted := emitted + src[at..at + len];
      if src == buf && bodyEnd == at { return; }
      forall i | 0 <= i < len { buf[bodyEnd + i] := src[at + i]; }
    }

    // The parser stands at `pos`, with the bytes before `stop` still to read as they were; there is room
    // for them.
    ghost predicate BodyRead(src: array<byte>, pos: nat, stop: nat, buf: array<byte>, bodyEnd: nat, text: seq<byte>)
      reads src
    {
      && pos <= stop <= src.Length == |text| && bodyEnd <= buf.Length
      && src[pos..] == text[pos..]
      && if src == buf then bodyEnd <= pos else stop - pos <= buf.Length - bodyEnd
    }

    // It reads on to `end`, and then hands out the piece of the body that begins at `at`.
    method ReadBody(
        src: array<byte>, pos: nat, at: nat, end: nat, buf: array<byte>, bodyEnd: nat, ghost stop: nat,
          ghost text: seq<byte>)
      returns (newEnd: nat)
      requires BodyRead(src, pos, stop, buf, bodyEnd, text) && pos <= at <= end <= stop
      modifies buf, this`fed, this`emitted
      ensures BodyRead(src, end, stop, buf, newEnd, text) && newEnd == bodyEnd + (end - at)
      ensures fed == old(fed) + text[pos..end]
      ensures emitted == old(emitted) + buf[bodyEnd..newEnd] && buf[..bodyEnd] == old(buf[..bodyEnd])
      ensures buf[bodyEnd..newEnd] == text[at..end]
    {
      newEnd := bodyEnd + (end - at);
      assert src[pos..end] == src[pos..][..end - pos] == text[pos..][..end - pos] == text[pos..end];
      assert src[end..] == src[pos..][end - pos..] == text[pos..][end - pos..] == text[end..];
      assert src[at..end] == src[pos..end][at - pos..] == text[at..end];
      fed := fed + src[pos..end];
      ghost var piece, held, beyond := src[at..end], buf[..bodyEnd], buf[newEnd..];
      OnBody(src, at, end - at, buf, bodyEnd);
      assert buf[bodyEnd..newEnd] == buf[..newEnd][bodyEnd..] == piece;
      assert buf[..bodyEnd] == buf[..newEnd][..bodyEnd] == held;
      assert src == buf ==> src[end..] == beyond[end - newEnd..];
    }

    // Since it began, as `was` tells, it has read up to pos and handed out what lies in buf before newEnd.
    ghost predicate Passed(src: array<byte>, buf: array<byte>, was: Pass, pos: nat, newEnd: nat)
      reads this`fed, this`emitted, src, buf
    {
      && BodyRead(src, pos, was.stop, buf, newEnd, was.text)
      && was.from <= pos && was.bodyEnd <= newEnd <= was.bodyEnd + (pos - was.from)
      && fed == was.fed + was.text[was.from..pos]
      && emitted == was.emitted + buf[was.bodyEnd..newEnd] && buf[..was.bodyEnd] == was.held
    }

    method ReadOn(src: array<byte>, buf: array<byte>, pos: nat, bodyEnd: nat, at: nat, end: nat, ghost was: Pass)
      returns (newEnd: nat)
      requires Passed(src, buf, was, pos, bodyEnd) && pos <= at <= end <= was.stop
      modifies buf, this`fed, this`emitted
      ensures Passed(src, buf, was, end, newEnd) && newEnd == bodyEnd + (end - at)
      ensures buf[bodyEnd..newEnd] == was.text[at..end]
    {
      ghost var first := buf[..bodyEnd];
      newEnd := ReadBody(src, pos, at, end, buf, bodyEnd, was.stop, was.text);
      Assoc(was.fed, was.text[was.from..pos], was.text[pos..end]);
      assert was.text[was.from..pos] + was.text[pos..end] == was.text[was.from..end];
      Joined(buf[..], first, was.bodyEnd, bodyEnd, newEnd);
      Assoc(was.emitted, buf[was.bodyEnd..bodyEnd], buf[bodyEnd..newEnd]);
    }

    // What was handed out before lies where it lay, and what is new comes behind it.
    static lemma {:induction false} Joined(text: seq<byte>, first: seq<byte>, from: nat, mid: nat, end: nat)
      requires from <= mid <= end <= |text| && text[..mid] == first
      ensures text[..from] == first[..from] && text[from..mid] == first[from..]
      ensures text[from..end] == text[from..mid] + text[mid..end]
    {
      assert text[from..mid] == text[..mid][from..];
    }

    method ReadBodyPieces(src: array<byte>, from: nat, stop: nat, buf: array<byte>, bodyEnd: nat, ghost was: Pass)
      returns (pos: nat, newEnd: nat)
      requires Passed(src, buf, was, from, bodyEnd) && was.stop == stop
      modifies buf, this`fed, this`emitted
      ensures Passed(src, buf, was, pos, newEnd) && from <= pos
    {
      var steps: nat := *;
      pos, newEnd := from, bodyEnd;
      while steps > 0
        invariant Passed(src, buf, was, pos, newEnd) && from <= pos
      {
        var end: nat :| pos <= end <= stop;
        var at: nat :| pos <= at <= end;
        newEnd := ReadOn(src, buf, pos, newEnd, at, end, was);
        pos, steps := end, steps - 1;
      }
    }

    method ReadBodyData(src: array<byte>, from: nat, n: nat, buf: array<byte>, bodyEnd: nat, ghost was: Pass)
      returns (pos: nat, verdict: Verdict, newEnd: nat)
      requires Passed(src, buf, was, from, bodyEnd) && was.stop == from + n
      modifies buf, this`fed, this`emitted
      ensures Passed(src, buf, was, pos, newEnd) && from <= pos
      ensures parser.UntilEnd? && n > 0 ==>
        verdict == OK && pos == from + n && newEnd == bodyEnd + n && buf[bodyEnd..newEnd] == was.text[from..from + n]
      ensures parser.Bodyless? ==> verdict == PAUSED && pos == from && newEnd == bodyEnd
      ensures parser.UntilEnd? && n == 0 ==> verdict == PAUSED
    {
      if parser.UntilEnd? {
        newEnd := ReadOn(src, buf, from, bodyEnd, from, from + n, was);
        pos, verdict := from + n, if n > 0 then OK else PAUSED;
      } else if parser.Bodyless? {
        pos, verdict, newEnd := from, PAUSED, bodyEnd;
      } else {
        pos, newEnd := ReadBodyPieces(src, from, from + n, buf, bodyEnd, was);
        verdict := *;
      }
    }

    // http_parser_execute on n bytes of the body.  Written where the data itself lies, the body never
    // runs over what has still to be read; copied, it never leaves the caller's buffer.
    method ExecuteBody(src: array<byte>, from: nat, n: nat, buf: array<byte>, bodyEnd: nat)
      returns (consumed: nat, verdict: Verdict, newEnd: nat)
      requires state == BODY && from + n <= src.Length && bodyEnd <= buf.Length
      requires if src == buf then bodyEnd <= from else n <= buf.Length - bodyEnd
      modifies buf, this`state, this`fed, this`emitted
      ensures consumed <= n && (verdict == OK && n > 0 ==> consumed > 0)
      ensures bodyEnd <= newEnd <= buf.Length && newEnd - bodyEnd <= consumed
      ensures fed == old(fed) + old(src[from..from + consumed])
      ensures src[from + consumed..] == old(src[from + consumed..])
      ensures emitted == old(emitted) + buf[bodyEnd..newEnd] && buf[..bodyEnd] == old(buf[..bodyEnd])
      ensures state == if verdict == PAUSED then EOM else BODY
      ensures parser.UntilEnd? && n > 0 ==>
        verdict == OK && consumed == n && newEnd == bodyEnd + n && buf[bodyEnd..newEnd] == old(src[from..from + n])
      ensures parser.Bodyless? ==> verdict == PAUSED && consumed == 0 && newEnd == bodyEnd
      ensures parser.UntilEnd? && n == 0 ==> verdict == PAUSED
    {
      ghost var was := Pass(from, from + n, bodyEnd, src[..], buf[..bodyEnd], emitted, fed);
      Neutral(fed);
      Neutral(emitted);
      var pos;
      pos, verdict, newEnd := ReadBodyData(src, from, n, buf, bodyEnd, was);
      consumed := pos - from;
      if verdict == OK && n > 0 && consumed == 0 {
        verdict := FAILED;
      }
      if verdict == PAUSED {
        state := EOM;   // on_message_complete
      }
    }

    // The parser goes over what lies in `prebody`, as far as the room in buf allows.
    method BodyFromPrebody(buf: array<byte>, bodyEnd: nat, n: nat) returns (verdict: Verdict, newEnd: nat)
      requires Valid() && state == BODY && buf != prebody.buf && n > 0
      requires bodyEnd <= buf.Length && n <= buf.Length - bodyEnd && n <= prebody.end - parsed
      modifies buf, this`state, this`fed, this`emitted, this`parsed
      ensures Valid() && state == (if verdict == PAUSED then EOM else BODY)
      ensures old(parsed) <= parsed <= prebody.end && (verdict == OK ==> old(parsed) < parsed)
      ensures fed == old(fed) + prebody.Contents()[old(parsed)..parsed]
      ensures bodyEnd <= newEnd <= buf.Length && emitted == old(emitted) + buf[bodyEnd..newEnd]
      ensures buf[..bodyEnd] == old(buf[..bodyEnd])
      ensures parser.UntilEnd? ==>
        && verdict == OK && parsed == old(parsed) + n
        && newEnd == bodyEnd + n && buf[bodyEnd..newEnd] == prebody.Contents()[old(parsed)..parsed]
      ensures parser.Bodyless? ==> verdict == PAUSED && parsed == old(parsed) && newEnd == bodyEnd
    {
      ghost var text, before := prebody.Contents(), fed;
      var consumed;
      consumed, verdict, newEnd := ExecuteBody(prebody.buf, parsed, n, buf, bodyEnd);
      assert prebody.Contents() == text;
      ghost var read := prebody.buf[parsed..parsed + consumed];
      assert forall k :: 0 <= k < consumed ==> read[k] == text[parsed..parsed + consumed][k];
      Advance(consumed, before, text);
    }

    // r->parsed += len
    method Advance(consumed: nat, ghost before: seq<byte>, ghost text: seq<byte>)
      requires prebody.Valid() && !prebody.frozen && prebody.Contents() == text && Assembled(parsed)
      requires state != PREBODY && !urlCont && !fieldCont && !valueCont && parsed + consumed <= |text|
      requires all == before + text[parsed..] + stream.data && fed == before + text[parsed..parsed + consumed]
      modifies this`parsed
      ensures Valid() && parsed == old(parsed) + consumed
    {
      Consumed(before, text, text, parsed, consumed, stream.data);
      LaidOutLater(Items(Located()), Grouped(pieces), text, parsed, text, parsed + consumed);
      parsed := parsed + consumed;
    }

    // The first loop of http_reader_body, through the body data in `prebody`.
    method DrainPrebody(buf: array<byte>) returns (verdict: Verdict, bodyEnd: nat)
      requires Valid() && state == BODY && buf != prebody.buf && buf.Length > 0
      modifies buf, this`state, this`fed, this`emitted, this`parsed
      ensures Valid() && state == (if verdict == PAUSED then EOM else BODY)
      ensures bodyEnd <= buf.Length && emitted == old(emitted) + buf[..bodyEnd]
      ensures old(parsed) <= parsed <= prebody.end && fed == old(fed) + prebody.Contents()[old(parsed)..parsed]
      ensures verdict == OK && bodyEnd < buf.Length ==> parsed == prebody.end
      ensures old(parsed) == prebody.end ==> verdict == OK && bodyEnd == 0
      ensures parser.UntilEnd? ==> verdict == OK && buf[..bodyEnd] == prebody.Contents()[old(parsed)..parsed]
      ensures parser.Bodyless? && old(parsed) < prebody.end ==>
        verdict == PAUSED && parsed == old(parsed) && bodyEnd == 0
    {
      bodyEnd, verdict := 0, OK;
      Neutral(emitted);
      Neutral(fed);
      while parsed < prebody.end
        invariant Valid() && state == BODY && verdict == OK && bodyEnd < buf.Length
        invariant Drained(buf, bodyEnd, old(parsed), old(emitted), old(fed))
        invariant parser.Bodyless? ==> parsed == old(parsed) && bodyEnd == 0
        decreases prebody.end - parsed
      {
        verdict, bodyEnd := DrainSome(buf, bodyEnd, old(parsed), old(emitted), old(fed));
        if verdict != OK || bodyEnd == buf.Length { return; }
      }
    }

    // What that loop has done since the parser stood at `from`.
    ghost predicate Drained(buf: array<byte>, bodyEnd: nat, from: nat, emitted0: seq<byte>, fed0: seq<byte>)
      reads this, prebody, prebody.buf, buf
    {
      && prebody.Valid() && bodyEnd <= buf.Length && emitted == emitted0 + buf[..bodyEnd]
      && from <= parsed <= prebody.end && fed == fed0 + prebody.Contents()[from..parsed]
      && (from == prebody.end ==> bodyEnd == 0)
      && (parser.UntilEnd? ==> buf[..bodyEnd] == prebody.Contents()[from..parsed])
    }

    method DrainSome(buf: array<byte>, bodyEnd: nat, ghost from: nat, ghost emitted0: seq<byte>, ghost fed0: seq<byte>)
      returns (verdict: Verdict, newEnd: nat)
      requires Valid() && state == BODY && buf != prebody.buf && bodyEnd < buf.Length && parsed < prebody.end
      requires Drained(buf, bodyEnd, from, emitted0, fed0)
      modifies buf, this`state, this`fed, this`emitted, this`parsed
      ensures Valid() && state == (if verdict == PAUSED then EOM else BODY)
      ensures Drained(buf, newEnd, from, emitted0, fed0) && (parser.UntilEnd? ==> verdict == OK)
      ensures parser.Bodyless? ==> verdict == PAUSED && parsed == old(parsed) && newEnd == bodyEnd
      ensures verdict == OK ==> old(parsed) < parsed
    {
      var left, len := prebody.end - parsed, buf.Length - bodyEnd;
      ghost var p, text, held := parsed, prebody.Contents(), buf[..bodyEnd];
      verdict, newEnd := BodyFromPrebody(buf, bodyEnd, if len < left then len else left);
      assert prebody.Contents() == text;
      assert buf[..newEnd] == held + buf[bodyEnd..newEnd];
      assert text[from..parsed] == text[from..p] + text[p..parsed];
      Assoc(emitted0, held, buf[bodyEnd..newEnd]);
      Assoc(fed0, text[from..p], text[p..parsed]);
    }

    // The last loop of http_reader_body: `got` bytes from the stream lie at `from`, where the body
    // ends, and are parsed.
    method ParseBody(buf: array<byte>, from: nat, got: nat) returns (verdict: Verdict, pos: nat, bodyEnd: nat)
      requires state == BODY && from + got <= buf.Length && all == fed + buf[from..from + got] + stream.data
      modifies buf, this`state, this`fed, this`emitted
      ensures from <= bodyEnd <= pos <= from + got && all == fed + buf[pos..from + got] + stream.data
      ensures emitted == old(emitted) + buf[from..bodyEnd] && buf[..from] == old(buf[..from])
      ensures state == (if verdict == PAUSED then EOM else BODY) && (verdict == OK ==> pos == from + got)
    {
      var left: nat := got;
      pos, bodyEnd := from, from;
      Neutral(emitted);
      while true
        invariant from <= bodyEnd <= pos && pos + left == from + got
        invariant state == BODY && all == fed + buf[pos..from + got] + stream.data
        invariant emitted == old(emitted) + buf[from..bodyEnd] && buf[..from] == old(buf[..from])
        decreases left
      {
        var consumed;
        ghost var e, now := bodyEnd, buf[..bodyEnd];
        consumed, verdict, bodyEnd := BodyStep(buf, from, pos, left, bodyEnd);
        Joined(buf[..], now, from, e, bodyEnd);
        Assoc(old(emitted), now[from..e], buf[e..bodyEnd]);
        pos, left := pos + consumed, left - consumed;
        if verdict != OK || left == 0 { return; }
      }
    }

    // What follows the message goes to `prebody`.
    method BodyFromStream(buf: array<byte>, from: nat, got: nat)
      returns (verdict: Verdict, bodyEnd: nat, ghost dropped: seq<byte>)
      requires prebody.Valid() && !prebody.frozen && parsed == prebody.end && Assembled(parsed)
      requires state == BODY && !urlCont && !fieldCont && !valueCont && buf != prebody.buf
      requires from + got <= buf.Length && all == fed + buf[from..from + got] + stream.data
      modifies buf, this`state, this`fed, this`emitted, prebody`buf, prebody`end, prebody.buf
      ensures prebody.Valid() && (prebody.buf == old(prebody.buf) || fresh(prebody.buf))
      ensures verdict != FAILED ==> Valid() && state == (if verdict == PAUSED then EOM else BODY) && dropped == []
      ensures verdict == FAILED ==> parsed == prebody.end && all == fed + dropped + stream.data
      ensures from <= bodyEnd <= buf.Length && emitted == old(emitted) + buf[from..bodyEnd]
      ensures buf[..from] == old(buf[..from])
    {
      var pos: nat;
      verdict, pos, bodyEnd := ParseBody(buf, from, got);
      dropped := [];
      if verdict == FAILED {
        dropped := buf[pos..from + got];
        return;
      }
      ghost var text := prebody.Contents();
      var rest := buf[pos..from + got];
      Leftover(text, rest, fed, stream.data);
      if verdict == PAUSED {
        LaidOutLater(Items(Located()), Grouped(pieces), text, parsed, text + rest, parsed);
        prebody.Append(rest);
        Reassembled(Located(), pieces, text + rest, parsed);
      }
    }

    static lemma {:induction false} Leftover(text: seq<byte>, rest: seq<byte>, fed: seq<byte>, data: seq<byte>)
      ensures fed + rest + data == fed + (text + rest)[|text|..] + data
      ensures rest == [] ==> fed + rest + data == fed + text[|text|..] + data
    {
      assert (text + rest)[|text|..] == rest;
    }

    static lemma {:induction false} Split(fed: seq<byte>, rest: seq<byte>, consumed: nat, data: seq<byte>)
      requires consumed <= |rest|
      ensures fed + rest + data == (fed + rest[..consumed]) + rest[consumed..] + data
    {
      assert rest == rest[..consumed] + rest[consumed..];
    }

    method BodyStep(buf: array<byte>, from: nat, pos: nat, left: nat, bodyEnd: nat)
      returns (consumed: nat, verdict: Verdict, newEnd: nat)
      requires from <= bodyEnd <= pos && pos + left <= buf.Length && state == BODY
      requires all == fed + buf[pos..pos + left] + stream.data
      modifies buf, this`state, this`fed, this`emitted
      ensures consumed <= left && (verdict == OK && left > 0 ==> consumed > 0)
      ensures bodyEnd <= newEnd <= pos + consumed
      ensures all == fed + buf[pos + consumed..pos + left] + stream.data
      ensures emitted == old(emitted) + buf[bodyEnd..newEnd] && buf[..bodyEnd] == old(buf[..bodyEnd])
      ensures state == if verdict == PAUSED then EOM else BODY
    {
      ghost var before, rest := fed, buf[pos..pos + left];
      consumed, verdict, newEnd := ExecuteBody(buf, pos, left, buf, bodyEnd);
      Split(before, rest, consumed, stream.data);
      assert fed == before + rest[..consumed];
      assert buf[pos + consumed..pos + left] == buf[pos + consumed..][..left - consumed] == rest[consumed..];
    }

    // What the stream may have answered, in the manner that it has.
    twostate predicate Answers(got: int)
      reads stream
    {
      && got == stream.answer && |stream.data| == old(|stream.data|) - (if got > 0 then got else 0)
      && (got == STREAM_END ==> stream.data == [])
      && (Reliable(stream.manner) ==> got != STREAM_ERROR)
      && (stream.manner == Willing ==> got != STREAM_WAITING)
      && (stream.manner == Silent ==> if old(stream.data) == [] then got == STREAM_WAITING else got > 0)
    }

    // The stream is asked to fill what is left of buf.
    method FillBody(buf: array<byte>, bodyEnd: nat) returns (got: int)
      requires Valid() && state == BODY && parsed == prebody.end && bodyEnd < buf.Length && buf != prebody.buf
      modifies buf, stream
      ensures STREAM_END <= got <= buf.Length - bodyEnd && buf[..bodyEnd] == old(buf[..bodyEnd])
      ensures got > 0 ==> all == fed + buf[bodyEnd..bodyEnd + got] + stream.data
      ensures Answers(got)
      ensures got <= 0 ==>
        Valid() && stream.data == old(stream.data) && all == fed + buf[bodyEnd..bodyEnd] + stream.data
    {
      var bytes: seq<byte>;
      assert fed + prebody.Contents()[parsed..] == fed;
      assert fed + buf[bodyEnd..bodyEnd] == fed;
      got, bytes := stream.Read(buf.Length - bodyEnd);
      if got > 0 {
        assert fed + (bytes + stream.data) == fed + bytes + stream.data;
        forall i | 0 <= i < got { buf[bodyEnd + i] := bytes[i]; }
        assert buf[bodyEnd..bodyEnd + got] == bytes;
      }
    }

    // The second half of http_reader_body, with nothing left in `prebody`.
    method BodyBeyond(buf: array<byte>, bodyEnd: nat)
      returns (
        res: int, ghost handed: nat, ghost ending: Ending, ghost dropped: seq<byte>, ghost answer: int,
        ghost late: Verdict)
      requires Valid() && state == BODY && parsed == prebody.end && bodyEnd < buf.Length && buf != prebody.buf
      modifies this`state, this`fed, this`emitted, buf, stream, prebody`buf, prebody`end, prebody.buf
      ensures ending != Failed(false) ==> Valid() && state != PREBODY
      ensures prebody.Valid() && (prebody.buf == old(prebody.buf) || fresh(prebody.buf))
      ensures bodyEnd <= handed <= buf.Length && emitted == old(emitted) + buf[bodyEnd..handed]
      ensures buf[..bodyEnd] == old(buf[..bodyEnd])
      ensures res == if late == FAILED then STREAM_ERROR else if NothingGiven(Some(answer)) then answer else handed
      ensures ending == Done || ending == Failed(false) || ending.Refused?
      ensures ending.Refused? ==>
        && STREAM_ERROR <= res <= 0 && state == BODY && parsed == prebody.end && handed == bodyEnd
        && stream.data == old(stream.data) && fed == old(fed)
      ensures ending == Failed(false) ==> parsed == prebody.end && all == fed + dropped + stream.data
      ensures ending != Failed(false) ==> dropped == []
      ensures ending.Refused? <==> NothingGiven(Some(answer))
      ensures ending == Failed(false) <==> late == FAILED
      ensures Answers(answer)
    {
      assert emitted + buf[bodyEnd..bodyEnd] == emitted;
      var got := FillBody(buf, bodyEnd);
      if got == STREAM_WAITING || got == STREAM_ERROR || got == 0 { return got, bodyEnd, Refused(got), [], got, OK; }
      var verdict, newEnd;
      verdict, newEnd, dropped := BodyFromStream(buf, bodyEnd, if got == STREAM_END then 0 else got);
      if verdict == FAILED { return STREAM_ERROR, newEnd, Failed(false), dropped, got, FAILED; }
      return newEnd, newEnd, Done, [], got, verdict;
    }

    // How the call ends is settled by what it meets on its course; and so is whether body data that has
    // been handed out is lost to the caller, who is told of buf[..handed] only by a positive result.
    ghost predicate Settled(len: nat, res: int, handed: nat, ending: Ending, course: Course) {
      && (course.answer.Some? ==> course.drain == OK && course.copied < len)
      && (course.drain == OK && course.copied < len ==> course.answer.Some?)
      && (course.answer.None? ==> course.late == OK)
      && course.copied <= handed && (handed == course.copied || course.answer.Some?)
      && (ending.Refused? <==> NothingGiven(course.answer))
      && (ending.Refused? ==> res == course.answer.value && handed == course.copied)
      && (course.drain == FAILED ==> res == -1)
      && (course.late == FAILED ==> res == STREAM_ERROR)
      && (course.drain == PAUSED && course.copied == 0 ==> res == STREAM_END)
      && (WentWell(course) ==> res == handed)
      && (ending == Failed(true) <==> course.drain == FAILED)
      && (ending == Failed(false) <==> course.late == FAILED)
      && (res <= 0 && handed > 0 <==>
            || (course.copied > 0 && (course.drain == FAILED || NothingGiven(course.answer)))
            || (course.late == FAILED && handed > 0))
    }

    // What http_reader_body does when it is done with `prebody`.
    method BodyGoesOn(buf: array<byte>, verdict: Verdict, bodyEnd: nat, ghost emitted0: seq<byte>)
      returns (res: int, ghost handed: nat, ghost ending: Ending, ghost dropped: seq<byte>, ghost course: Course)
      requires Valid() && state == (if verdict == PAUSED then EOM else BODY) && buf != prebody.buf
      requires bodyEnd <= buf.Length && emitted == emitted0 + buf[..bodyEnd] && buf.Length > 0
      requires verdict == OK && bodyEnd < buf.Length ==> parsed == prebody.end
      modifies this`state, this`fed, this`emitted, buf, stream, prebody`buf, prebody`end, prebody.buf
      ensures ending != Failed(false) ==> Valid() && state != PREBODY && dropped == []
      ensures ending == Failed(false) ==> parsed == prebody.end && all == fed + dropped + stream.data
      ensures prebody.Valid() && (prebody.buf == old(prebody.buf) || fresh(prebody.buf))
      ensures handed <= buf.Length && emitted == emitted0 + buf[..handed] && buf[..bodyEnd] == old(buf[..bodyEnd])
      ensures ending != NoRoom && (ending == AtEnd ==> state == EOM && handed == 0 && res == STREAM_END)
      ensures ending.Refused? ==>
        && STREAM_ERROR <= res <= 0 && state == BODY && parsed == prebody.end
        && stream.data == old(stream.data) && fed == old(fed)
      ensures Settled(buf.Length, res, handed, ending, course) && course.drain == verdict && course.copied == bodyEnd
      ensures if course.answer.Some? then Answers(course.answer.value) else stream.data == old(stream.data)
      ensures verdict == PAUSED ==> fed == old(fed) && prebody.Contents() == old(prebody.Contents())
      ensures verdict == PAUSED && bodyEnd == 0 ==> ending == AtEnd
    {
      dropped, course := [], Course(verdict, bodyEnd, None, OK);
      if verdict == FAILED { return STREAM_WAITING, bodyEnd, Failed(true), [], course; }
      if verdict == PAUSED {
        if bodyEnd == 0 { return STREAM_END, 0, AtEnd, [], course; }
        return bodyEnd, bodyEnd, Done, [], course;
      }
      if bodyEnd == buf.Length { return bodyEnd, bodyEnd, Done, [], course; }
      ghost var first := buf[..bodyEnd];
      ghost var answer, late;
      res, handed, ending, dropped, answer, late := BodyBeyond(buf, bodyEnd);
      course := Course(OK, bodyEnd, Some(answer), late);
      assert buf[..handed] == first + buf[bodyEnd..handed];
      Assoc(emitted0, first, buf[bodyEnd..handed]);
    }

    // http_reader_body, into buf.  `dropped` is what a late parser error leaves unfed.
    method Body(buf: array<byte>)
      returns (res: int, ghost handed: nat, ghost ending: Ending, ghost dropped: seq<byte>, ghost course: Course)
      requires Valid() && state != PREBODY && buf != prebody.buf
      modifies this`state, this`fed, this`emitted, this`parsed, buf, stream, prebody`buf, prebody`end, prebody.buf
      ensures ending != Failed(false) ==> Valid() && state != PREBODY && dropped == []
      ensures ending == Failed(false) ==> parsed == prebody.end && all == fed + dropped + stream.data
      ensures prebody.Valid() && (prebody.buf == old(prebody.buf) || fresh(prebody.buf))
      ensures handed <= buf.Length && emitted == old(emitted) + buf[..handed]
      // A positive result counts the bytes of the body that are the caller's, from the start of its buffer on.
      ensures res > 0 ==> res <= buf.Length && emitted == old(emitted) + buf[..res]
      ensures ending == Done ==> res == handed
      ensures old(state) == EOM ==> res == STREAM_END
      ensures old(state) == BODY && buf.Length == 0 ==> res == 0
      ensures ending == AtEnd ==> state == EOM && handed == 0 && res == STREAM_END
      ensures ending == NoRoom <==> old(state) == BODY && buf.Length == 0
      ensures ending == NoRoom ==> handed == 0
      ensures ending.Refused? ==>
        && STREAM_ERROR <= res <= 0 && state == BODY && parsed == prebody.end
        && stream.data == old(stream.data) && fed == old(fed) + old(prebody.Contents()[parsed..])
      ensures old(state) == BODY && buf.Length > 0 ==> Settled(buf.Length, res, handed, ending, course)
      ensures old(state) == EOM || buf.Length == 0 ==> course == NOTHING_MET && handed == 0
      ensures old(parsed == prebody.end) ==> course.drain == OK && course.copied == 0
      ensures if course.answer.Some? then Answers(course.answer.value) else stream.data == old(stream.data)
      // With a body that runs to the end of the stream, the data is lost exactly if it leaves room and the
      // stream then has nothing to give; and all of it is lost.
      ensures parser.UntilEnd? && old(state) == BODY && buf.Length > 0 ==>
        var left := old(prebody.end - parsed);
        && course.drain == OK && course.copied == (if left < buf.Length then left else buf.Length)
        && (res <= 0 && handed > 0 && ending != Failed(false) <==> 0 < left < buf.Length && NothingGiven(course.answer))
      ensures parser.UntilEnd? && ending.Refused? ==> buf[..handed] == old(prebody.Contents()[parsed..])
      ensures parser.Bodyless? && old(state == BODY && parsed < prebody.end) && buf.Length > 0 ==>
        ending == AtEnd && fed == old(fed) && prebody.Contents()[parsed..] == old(prebody.Contents()[parsed..])
    {
      dropped, course := [], NOTHING_MET;
      Neutral(emitted);
      if state != BODY { return STREAM_END, 0, AtEnd, [], course; }
      if buf.Length == 0 { return 0, 0, NoRoom, [], course; }
      var verdict, bodyEnd := DrainPrebody(buf);
      res, handed, ending, dropped, course := BodyGoesOn(buf, verdict, bodyEnd, old(emitted));
    }
  }

  // The stream has nothing more for now: what lay in `prebody` is handed to the caller, who is told to wait.
  method AskInVain(r: Reader, buf: array<byte>) returns (res: int, lost: seq<byte>)
    requires r.Valid() && r.state == BODY && r.parser.UntilEnd? && r.stream.manner == Silent && r.stream.data == []
    requires buf != r.prebody.buf && r.prebody.end - r.parsed < buf.Length
    modifies r`state, r`fed, r`emitted, r`parsed, buf, r.stream, r.prebody`buf, r.prebody`end, r.prebody.buf
    ensures res == STREAM_WAITING && lost == old(r.prebody.Contents()[r.parsed..])
    ensures r.Valid() && r.state == BODY && r.parsed == r.prebody.end && r.stream.data == []
    ensures r.prebody.buf == old(r.prebody.buf) || fresh(r.prebody.buf)
  {
    var left := r.prebody.end - r.parsed;
    ghost var handed, ending, dropped, course;
    res, handed, ending, dropped, course := r.Body(buf);
    assert |buf[..handed]| == left;
    lost := buf[..left];
  }

  method AskTwice(r: Reader, buf: array<byte>) returns (first: int, second: int, lost: seq<byte>, more: seq<byte>)
    requires r.Valid() && r.state == BODY && r.parser.UntilEnd? && r.stream.manner == Silent && r.stream.data == []
    requires buf != r.prebody.buf && r.prebody.end - r.parsed < buf.Length
    modifies r`state, r`fed, r`emitted, r`parsed, buf, r.stream, r.prebody`buf, r.prebody`end, r.prebody.buf
    ensures first == second == STREAM_WAITING && lost == old(r.prebody.Contents()[r.parsed..]) && more == []
  {
    first, lost := AskInVain(r, buf);
    second, more := AskInVain(r, buf);
  }

  // The beginning of a message's body comes with its head, and the stream has no more for now: the caller is
  // told to wait, and when it asks again the beginning is gone.
  method BodyLost(head: seq<byte>, body: seq<byte>) returns (first: int, second: int, lost: seq<byte>, more: seq<byte>)
    requires body != [] && |head| + |body| <= 100
    ensures first == second == STREAM_WAITING && lost == body && more == []
  {
    var r := Begun(UntilEnd(|head|), head, body);
    var buf := new byte[|body| + 1](_ => 0);
    first, second, lost, more := AskTwice(r, buf);
  }

  // A new reader of a stream that holds a head and a rest, and then has no more for now: it has taken in the
  // head, and the rest lies in its buffer.
  method Begun(parser: Parser, head: seq<byte>, rest: seq<byte>) returns (r: Reader)
    requires parser != Unknown && parser.head == |head| && rest != [] && |head| + |rest| <= 100
    ensures fresh(r) && fresh(r.prebody) && fresh(r.prebody.buf) && fresh(r.stream)
    ensures r.Valid() && r.state == BODY && r.parser == parser && r.stream.manner == Silent && r.stream.data == []
    ensures r.prebody.Contents()[r.parsed..] == rest && r.prebody.end - r.parsed == |rest|
  {
    var stream := new Source(Silent, head + rest);
    r := new Reader(stream, parser);
    ReadHead(r, head, rest);
  }

  method ReadHead(r: Reader, head: seq<byte>, rest: seq<byte>)
    requires r.Valid() && r.state == PREBODY && r.parser != Unknown && r.parser.head == |head| && !r.fieldCont
    requires r.all == head + rest == r.stream.data && r.stream.manner == Silent && rest != [] && |r.all| <= 100
    requires r.fed == [] && r.parsed == r.prebody.end
    modifies r, r.prebody, r.prebody.buf, r.stream
    ensures r.Valid() && r.state == BODY && r.stream.data == [] && r.prebody.Contents()[r.parsed..] == rest
    ensures r.prebody.end - r.parsed == |rest|
    ensures r.prebody.buf == old(r.prebody.buf) || fresh(r.prebody.buf)
  {
    ghost var first, looked;
    var result;
    result, first, looked := r.Prebody();
    assert r.all == r.fed + r.prebody.Contents()[r.parsed..];
    assert r.all[|head|..] == rest;
  }

  // Two messages without bodies come together, and the stream has no more for now: the reader has the second
  // in its buffer, complete, and is told to wait however often it asks.
  method MessageUnnoticed(message: seq<byte>)
    returns (body: int, second: PrebodyResult, third: PrebodyResult, left: seq<byte>)
    requires 0 < |message| <= 50
    ensures body == STREAM_END && second == WAITING && third == WAITING && left == message
  {
    var r := Begun(Bodyless(|message|), message, message);
    var buf := new byte[10](_ => 0);
    body, second, third, left := EndAndWait(r, buf);
  }

  method EndAndWait(r: Reader, buf: array<byte>)
    returns (body: int, second: PrebodyResult, third: PrebodyResult, left: seq<byte>)
    requires r.Valid() && r.state == BODY && r.parser.Bodyless? && r.stream.manner == Silent && r.stream.data == []
    requires r.parsed < r.prebody.end && buf != r.prebody.buf && buf.Length > 0
    modifies r, r.prebody, r.prebody.buf, r.stream, buf
    ensures body == STREAM_END && second == WAITING && third == WAITING
    ensures left == old(r.prebody.Contents()[r.parsed..])
  {
    body := EndBody(r, buf);
    second := WaitInVain(r);
    third := WaitInVain(r);
    left := r.prebody.buf[r.parsed..r.prebody.end];
    assert left == r.prebody.Contents()[r.parsed..];
  }

  method EndBody(r: Reader, buf: array<byte>) returns (res: int)
    requires r.Valid() && r.state == BODY && r.parser.Bodyless? && r.stream.data == []
    requires r.parsed < r.prebody.end && buf != r.prebody.buf && buf.Length > 0
    modifies r`state, r`fed, r`emitted, r`parsed, buf, r.stream, r.prebody`buf, r.prebody`end, r.prebody.buf
    ensures res == STREAM_END && r.Valid() && r.state == EOM && r.stream.data == []
    ensures r.prebody.Contents()[r.parsed..] == old(r.prebody.Contents()[r.parsed..])
    ensures r.prebody.buf == old(r.prebody.buf) || fresh(r.prebody.buf)
  {
    ghost var handed, ending, dropped, course;
    res, handed, ending, dropped, course := r.Body(buf);
  }

  // What is left over stays where it is for as long as the stream has nothing more.
  method WaitInVain(r: Reader) returns (result: PrebodyResult)
    requires r.Valid() && r.state != BODY && r.stream.manner == Silent && r.stream.data == []
    modifies r, r.prebody, r.prebody.buf, r.stream
    ensures result == WAITING && r.Valid() && r.state == PREBODY && r.stream.data == []
    ensures r.prebody.Contents()[r.parsed..] == old(r.prebody.Contents()[r.parsed..])
    ensures r.prebody.buf == old(r.prebody.buf) || fresh(r.prebody.buf)
  {
    ghost var first, looked;
    result, first, looked := r.Prebody();
  }
}
