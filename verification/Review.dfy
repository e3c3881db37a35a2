/** Finding JSON objects in whatever a reviewer said: a single pass that counts braces outside JSON
    strings. */
module Review {

  /** Half-open positions of one span in the text. */
  datatype Span = Span(from: nat, to: nat)

  datatype Scan = Scan(depth: nat, start: nat, inString: bool, escaped: bool, spans: seq<Span>)

  const BEGIN := Scan(0, 0, false, false, [])

  /** One character of `_balanced_objects`. */
  function Feed(s: Scan, c: char, index: nat): Scan {
    if s.inString then
      if s.escaped then s.(escaped := false)
      else if c == '\\' then s.(escaped := true)
      else if c == '"' then s.(inString := false)
      else s
    else if c == '"' then s.(inString := true)
    else if c == '{' then s.(start := if s.depth == 0 then index else s.start, depth := s.depth + 1)
    else if c == '}' && s.depth > 0 then
      if s.depth == 1 then s.(depth := 0, spans := s.spans + [Span(s.start, index + 1)])
      else s.(depth := s.depth - 1)
    else s
  }

  /** The scan after `text`, read from position `base`. */
  function Run(s: Scan, text: string, base: nat): Scan
    decreases |text|
  {
    if text == "" then s
    else Feed(Run(s, text[..|text| - 1], base), text[|text| - 1], base + |text| - 1)
  }

  lemma {:induction false} RunConcat(s: Scan, a: string, b: string, base: nat)
    ensures Run(s, a + b, base) == Run(Run(s, a, base), b, base + |a|)
    decreases |b|
  {
    if b == "" {
      assert a + b == a;
    } else {
      assert (a + b)[..|a + b| - 1] == a + b[..|b| - 1];
      RunConcat(s, a, b[..|b| - 1], base);
    }
  }

  lemma BeginRun()
    ensures Run(BEGIN, "", 0) == BEGIN
  {
  }

  lemma RunOne(s: Scan, c: char, base: nat)
    ensures Run(s, [c], base) == Feed(s, c, base)
  {
    assert [c][..0] == "" && Run(s, "", base) == s;
    hide Feed;
  }

  function Slices(text: string, spans: seq<Span>): seq<string>
    requires forall k :: 0 <= k < |spans| ==> spans[k].from <= spans[k].to <= |text|
  {
    seq(|spans|, k requires 0 <= k < |spans| => text[spans[k].from..spans[k].to])
  }

  /** The scan before position `p` of a text. */
  function Before(text: string, p: nat): Scan
    requires p <= |text|
  {
    Run(BEGIN, text[..p], 0)
  }

  // -- in general ------------------------------------------------------------------------------

  /** What holds of a span: a brace at each end, opened outside any object or string, and the depth
      back at zero only at its end. */
  predicate IsObject(text: string, x: Span) {
    && x.from < x.to <= |text|
    && text[x.from] == '{' && text[x.to - 1] == '}'
    && Before(text, x.from).depth == 0 && !Before(text, x.from).inString
    && (forall p :: x.from < p < x.to ==> Before(text, p).depth > 0)
    && Before(text, x.to).depth == 0
  }

  /** The scan before `p` holds exactly the objects closed so far, in order and disjoint, and knows
      where the open one began. */
  ghost predicate Tracks(text: string, p: nat)
    requires p <= |text|
  {
    var s := Before(text, p);
    && (forall k :: 0 <= k < |s.spans| ==> s.spans[k].to <= p && IsObject(text, s.spans[k]))
    && (forall k :: 0 < k < |s.spans| ==> s.spans[k - 1].to <= s.spans[k].from)
    && (s.depth > 0 ==>
          && s.start < p && text[s.start] == '{'
          && Before(text, s.start).depth == 0 && !Before(text, s.start).inString
          && (forall q :: s.start < q <= p ==> Before(text, q).depth > 0)
          && (s.spans != [] ==> s.spans[|s.spans| - 1].to <= s.start))
    && (s.depth == 0 && s.spans != [] ==> s.spans[|s.spans| - 1].to <= p)
    && (s.escaped ==> s.inString)
  }

  lemma BeforeStep(text: string, p: nat)
    requires p < |text|
    ensures Before(text, p + 1) == Feed(Before(text, p), text[p], p)
  {
    assert text[..p + 1][..p] == text[..p];
  }

  lemma {:induction false} ScanTracks(text: string, p: nat)
    requires p <= |text|
    ensures Tracks(text, p)
  {
    if p > 0 {
      ScanTracks(text, p - 1);
      TracksOn(text, p - 1);
    }
  }

  lemma SpanCloses(text: string, p: nat)
    requires p < |text| && Tracks(text, p) && Before(text, p).depth == 1
    requires !Before(text, p).inString && text[p] == '}'
    ensures IsObject(text, Span(Before(text, p).start, p + 1))
  {
    BeforeStep(text, p);
    hide Run, Before;
  }

  lemma TracksOn(text: string, p: nat)
    requires p < |text| && Tracks(text, p)
    ensures Tracks(text, p + 1)
  {
    hide Run, Before, IsObject;
    BeforeStep(text, p);
    var s := Before(text, p);
    if !s.inString && text[p] == '}' && s.depth == 1 {
      SpanCloses(text, p);
    }
  }

  lemma BeforeEnds(text: string)
    ensures Before(text, 0) == BEGIN && Before(text, |text|) == Run(BEGIN, text, 0)
  {
    assert text[..0] == "" && text[..|text|] == text;
  }

  lemma {:induction false} SpansStay(text: string, p: nat, q: nat, x: Span)
    requires p <= q <= |text| && x in Before(text, p).spans
    ensures x in Before(text, q).spans
  {
    hide Run, Before;
    if p < q {
      SpansStay(text, p, q - 1, x);
      BeforeStep(text, q - 1);
    }
  }

  /** An object is a span once the scan has passed it. */
  lemma ObjectIsASpan(text: string, x: Span)
    requires IsObject(text, x)
    ensures x in Before(text, |text|).spans
  {
    var p := x.to - 1;
    ScanTracks(text, p);
    BeforeStep(text, p);
    var s := Before(text, p);
    assert x.from < p < x.to;
    assert s.start == x.from;
    assert Before(text, x.to).spans == s.spans + [x];
    SpansStay(text, x.to, |text|, x);
    hide Run, Before;
  }

  /** The spans of a text are its objects, all of them, in order and disjoint. */
  lemma SpansAreTheObjects(text: string, spans: seq<Span>)
    requires spans == Run(BEGIN, text, 0).spans
    ensures forall x :: x in spans <==> IsObject(text, x)
    ensures forall k :: 0 < k < |spans| ==> spans[k - 1].to <= spans[k].from
  {
    BeforeEnds(text);
    ScanTracks(text, |text|);
    forall x | IsObject(text, x)
      ensures x in spans
    {
      ObjectIsASpan(text, x);
    }
    hide Run, Before;
  }

  /** `_balanced_objects`: the objects of the text, all of them, in order and disjoint. */
  method BalancedObjects(text: string) returns (objects: seq<string>, ghost spans: seq<Span>)
    ensures spans == Run(BEGIN, text, 0).spans
    ensures forall k :: 0 <= k < |spans| ==> spans[k].from <= spans[k].to <= |text|
    ensures forall x :: x in spans <==> IsObject(text, x)
    ensures forall k :: 0 < k < |spans| ==> spans[k - 1].to <= spans[k].from
    ensures objects == Slices(text, spans)
  {
    hide IsObject, Run, Before;
    BeforeEnds(text);
    objects := [];
    var depth, start, index := 0, 0, 0;
    var inString, escaped := false, false;
    spans := [];
    while index < |text|
      invariant 0 <= index <= |text|
      invariant Scan(depth, start, inString, escaped, spans) == Before(text, index)
      invariant forall k :: 0 <= k < |spans| ==> spans[k].from <= spans[k].to <= |text|
      invariant objects == Slices(text, spans)
    {
      BeforeStep(text, index);
      ScanTracks(text, index);
      var c := text[index];
      if inString {
        if escaped {
          escaped := false;
        } else if c == '\\' {
          escaped := true;
        } else if c == '"' {
          inString := false;
        }
      } else if c == '"' {
        inString := true;
      } else if c == '{' {
        if depth == 0 {
          start := index;
        }
        depth := depth + 1;
      } else if c == '}' && depth > 0 {
        depth := depth - 1;
        if depth == 0 {
          objects := objects + [text[start..index + 1]];
          spans := spans + [Span(start, index + 1)];
        }
      }
      index := index + 1;
    }
    SpansAreTheObjects(text, spans);
  }

  // -- on JSON -----------------------------------------------------------------------------------

  /** One character of a JSON string as it is written: plain, or a backslash and what it escapes
      (the digits of a `\u` escape are plain characters). */
  datatype Piece = Plain(c: char) | Escape(c: char)

  /** JSON text as its grammar derives it (sections 2 to 7 of RFC 8259), whitespace included. A
      scalar is a number or one of the three literal names. */
  datatype Json =
    | Scalar(text: string)
    | Str(pieces: seq<Piece>)
    | Arr(items: seq<Item>, blank: string)
    | Obj(members: seq<Member>, blank: string)

  datatype Item = Item(before: string, value: Json, after: string)

  datatype Member = Member(
    before: string, key: seq<Piece>, middle: string, gap: string, value: Json, after: string)

  predicate Blank(s: string) {
    forall k :: 0 <= k < |s| ==> s[k] in {' ', '\t', '\n', '\r'}
  }

  /** Text without quotes or braces. */
  predicate Prose(s: string) {
    forall k :: 0 <= k < |s| ==> s[k] != '"' && s[k] != '{' && s[k] != '}'
  }

  predicate GoodPieces(pieces: seq<Piece>) {
    forall k :: 0 <= k < |pieces| ==> pieces[k].Plain? ==> pieces[k].c != '"' && pieces[k].c != '\\'
  }

  predicate Good(v: Json)
    decreases v
  {
    match v
    case Scalar(text) => Prose(text)
    case Str(pieces) => GoodPieces(pieces)
    case Arr(items, blank) =>
      Blank(blank) && forall k :: 0 <= k < |items| ==>
        Blank(items[k].before) && Blank(items[k].after) && Good(items[k].value)
    case Obj(members, blank) =>
      Blank(blank) && forall k :: 0 <= k < |members| ==> GoodMember(members[k])
  }

  predicate GoodMember(m: Member)
    decreases m, 0
  {
    Blank(m.before) && Blank(m.middle) && Blank(m.gap) && Blank(m.after)
    && GoodPieces(m.key) && Good(m.value)
  }

  function PrintPieces(pieces: seq<Piece>): string {
    if pieces == [] then ""
    else
      var last := pieces[|pieces| - 1];
      PrintPieces(pieces[..|pieces| - 1]) + (if last.Plain? then [last.c] else ['\\', last.c])
  }

  function Quoted(pieces: seq<Piece>): string {
    "\"" + PrintPieces(pieces) + "\""
  }

  function Print(v: Json): string
    decreases v
  {
    match v
    case Scalar(text) => text
    case Str(pieces) => Quoted(pieces)
    case Arr(items, blank) => "[" + (if items == [] then blank else PrintItems(items)) + "]"
    case Obj(members, blank) => "{" + (if members == [] then blank else PrintMembers(members)) + "}"
  }

  function PrintItem(i: Item): string
    decreases i
  {
    i.before + Print(i.value) + i.after
  }

  function PrintItems(items: seq<Item>): string
    decreases items
  {
    if items == [] then ""
    else if |items| == 1 then PrintItem(items[0])
    else PrintItems(items[..|items| - 1]) + "," + PrintItem(items[|items| - 1])
  }

  function PrintMember(m: Member): string
    decreases m
  {
    m.before + Quoted(m.key) + m.middle + ":" + m.gap + Print(m.value) + m.after
  }

  function PrintMembers(members: seq<Member>): string
    decreases members
  {
    if members == [] then ""
    else if |members| == 1 then PrintMember(members[0])
    else PrintMembers(members[..|members| - 1]) + "," + PrintMember(members[|members| - 1])
  }

  /** Prose leaves the scan as it is. */
  lemma {:induction false} ProseIsSkipped(s: Scan, text: string, base: nat)
    requires !s.inString && Prose(text)
    ensures Run(s, text, base) == s
    decreases |text|
  {
    if text != "" {
      ProseIsSkipped(s, text[..|text| - 1], base);
    }
  }

  lemma {:induction false} PiecesStayInside(s: Scan, pieces: seq<Piece>, base: nat)
    requires s.inString && !s.escaped && GoodPieces(pieces)
    ensures Run(s, PrintPieces(pieces), base) == s
    decreases |pieces|
  {
    if pieces != [] {
      var front, last := pieces[..|pieces| - 1], pieces[|pieces| - 1];
      PiecesStayInside(s, front, base);
      var text := if last.Plain? then [last.c] else ['\\', last.c];
      RunConcat(s, PrintPieces(front), text, base);
      var at := base + |PrintPieces(front)|;
      if last.Plain? {
        RunOne(s, last.c, at);
      } else {
        assert text == ['\\'] + [last.c];
        RunConcat(s, ['\\'], [last.c], at);
        RunOne(s, '\\', at);
        RunOne(s.(escaped := true), last.c, at + 1);
      }
    }
  }

  /** A properly escaped string is skipped whole, whatever it contains. */
  lemma StringIsSkipped(s: Scan, pieces: seq<Piece>, base: nat)
    requires !s.inString && !s.escaped && GoodPieces(pieces)
    ensures Run(s, Quoted(pieces), base) == s
  {
    var body := PrintPieces(pieces);
    RunConcat(s, "\"" + body, "\"", base);
    RunConcat(s, "\"", body, base);
    RunOne(s, '"', base);
    PiecesStayInside(s.(inString := true), pieces, base + 1);
    RunOne(s.(inString := true), '"', base + 1 + |body|);
  }

  /** Inside an object, a whole JSON value changes nothing. */
  lemma {:induction false} ValueIsSkipped(s: Scan, v: Json, base: nat)
    requires s.depth > 0 && !s.inString && !s.escaped && Good(v)
    ensures Run(s, Print(v), base) == s
    decreases v, 1
  {
    hide Run, Feed;
    match v {
      case Scalar(text) => ProseIsSkipped(s, text, base);
      case Str(pieces) => StringIsSkipped(s, pieces, base);
      case Arr(items, blank) =>
        var body := if items == [] then blank else PrintItems(items);
        RunConcat(s, "[" + body, "]", base);
        RunConcat(s, "[", body, base);
        ProseIsSkipped(s, "[", base);
        if items == [] { ProseIsSkipped(s, blank, base + 1); } else { ItemsAreSkipped(s, v, items, base + 1); }
        ProseIsSkipped(s, "]", base + 1 + |body|);
      case Obj(members, blank) =>
        ObjectReturns(s, v, base);
    }
  }

  lemma {:induction false} ItemsAreSkipped(s: Scan, v: Json, items: seq<Item>, base: nat)
    requires s.depth > 0 && !s.inString && !s.escaped && items != []
    requires forall k :: 0 <= k < |items| ==>
               items[k].value < v && Blank(items[k].before) && Blank(items[k].after) && Good(items[k].value)
    ensures Run(s, PrintItems(items), base) == s
    decreases v, 0, |items|
  {
    hide Run, Feed;
    var last := items[|items| - 1];
    if |items| == 1 {
      ItemIsSkipped(s, v, last, base);
    } else {
      var front := items[..|items| - 1];
      var text := PrintItems(front);
      ItemsAreSkipped(s, v, front, base);
      RunConcat(s, text + ",", PrintItem(last), base);
      RunConcat(s, text, ",", base);
      ProseIsSkipped(s, ",", base + |text|);
      ItemIsSkipped(s, v, last, base + |text| + 1);
    }
  }

  lemma {:induction false} ItemIsSkipped(s: Scan, v: Json, i: Item, base: nat)
    requires s.depth > 0 && !s.inString && !s.escaped
    requires i.value < v && Blank(i.before) && Blank(i.after) && Good(i.value)
    ensures Run(s, PrintItem(i), base) == s
    decreases v, 0, 0
  {
    hide Run, Feed;
    var text := Print(i.value);
    RunConcat(s, i.before + text, i.after, base);
    RunConcat(s, i.before, text, base);
    ProseIsSkipped(s, i.before, base);
    ValueIsSkipped(s, i.value, base + |i.before|);
    ProseIsSkipped(s, i.after, base + |i.before| + |text|);
  }

  lemma {:induction false} MembersAreSkipped(s: Scan, v: Json, members: seq<Member>, base: nat)
    requires s.depth > 0 && !s.inString && !s.escaped && members != []
    requires forall k :: 0 <= k < |members| ==> members[k].value < v && GoodMember(members[k])
    ensures Run(s, PrintMembers(members), base) == s
    decreases v, 0, |members|
  {
    hide Run, Feed;
    var last := members[|members| - 1];
    if |members| == 1 {
      MemberIsSkipped(s, v, last, base);
    } else {
      var front := members[..|members| - 1];
      var text := PrintMembers(front);
      MembersAreSkipped(s, v, front, base);
      RunConcat(s, text + ",", PrintMember(last), base);
      RunConcat(s, text, ",", base);
      ProseIsSkipped(s, ",", base + |text|);
      MemberIsSkipped(s, v, last, base + |text| + 1);
    }
  }

  lemma {:induction false} MemberIsSkipped(s: Scan, v: Json, m: Member, base: nat)
    requires s.depth > 0 && !s.inString && !s.escaped && m.value < v && GoodMember(m)
    ensures Run(s, PrintMember(m), base) == s
    decreases v, 0, 0
  {
    hide Run, Feed, Print, Good, Quoted;
    var key, sep, text := Quoted(m.key), m.middle + ":" + m.gap, Print(m.value);
    assert PrintMember(m) == m.before + (key + (sep + (text + m.after)));
    RunConcat(s, m.before, key + (sep + (text + m.after)), base);
    ProseIsSkipped(s, m.before, base);
    var at := base + |m.before|;
    RunConcat(s, key, sep + (text + m.after), at);
    StringIsSkipped(s, m.key, at);
    RunConcat(s, sep, text + m.after, at + |key|);
    ProseIsSkipped(s, sep, at + |key|);
    RunConcat(s, text, m.after, at + |key| + |sep|);
    ValueIsSkipped(s, m.value, at + |key| + |sep|);
    ProseIsSkipped(s, m.after, at + |key| + |sep| + |text|);
  }

  /** A whole object brings the scan back where it was; at depth zero it also adds its span. */
  lemma {:induction false} ObjectReturns(s: Scan, v: Json, base: nat)
    requires !s.inString && !s.escaped && v.Obj? && Good(v)
    ensures Run(s, Print(v), base) ==
            if s.depth == 0 then s.(start := base, spans := s.spans + [Span(base, base + |Print(v)|)]) else s
    decreases v, 0
  {
    hide Run;
    var body := if v.members == [] then v.blank else PrintMembers(v.members);
    RunConcat(s, "{" + body, "}", base);
    RunConcat(s, "{", body, base);
    RunOne(s, '{', base);
    var inside := Feed(s, '{', base);
    if v.members == [] {
      ProseIsSkipped(inside, v.blank, base + 1);
    } else {
      MembersAreSkipped(inside, v, v.members, base + 1);
    }
    RunOne(inside, '}', base + 1 + |body|);
  }

  /** Reviewer output: objects between stretches of prose. */
  datatype Chunk = Chunk(prose: string, value: Json)

  function PrintOutput(chunks: seq<Chunk>): string {
    if chunks == [] then ""
    else
      var last := chunks[|chunks| - 1];
      PrintOutput(chunks[..|chunks| - 1]) + last.prose + Print(last.value)
  }

  predicate GoodOutput(chunks: seq<Chunk>) {
    forall k :: 0 <= k < |chunks| ==>
      Prose(chunks[k].prose) && chunks[k].value.Obj? && Good(chunks[k].value)
  }

  function Objects(chunks: seq<Chunk>): seq<string> {
    seq(|chunks|, k requires 0 <= k < |chunks| => Print(chunks[k].value))
  }

  lemma {:induction false} OutputScan(chunks: seq<Chunk>)
    requires GoodOutput(chunks)
    ensures var s := Run(BEGIN, PrintOutput(chunks), 0);
            && s.depth == 0 && !s.inString && !s.escaped && |s.spans| == |chunks|
            && forall k :: 0 <= k < |chunks| ==>
                 && s.spans[k].from <= s.spans[k].to <= |PrintOutput(chunks)|
                 && PrintOutput(chunks)[s.spans[k].from..s.spans[k].to] == Print(chunks[k].value)
    decreases |chunks|
  {
    hide Feed, Run, Print, Good;
    BeginRun();
    if chunks != [] {
      var front, last := chunks[..|chunks| - 1], chunks[|chunks| - 1];
      var text := PrintOutput(front);
      OutputScan(front);
      var s := Run(BEGIN, text, 0);
      RunConcat(BEGIN, text + last.prose, Print(last.value), 0);
      RunConcat(BEGIN, text, last.prose, 0);
      ProseIsSkipped(s, last.prose, |text|);
      ObjectReturns(s, last.value, |text| + |last.prose|);
      var all := PrintOutput(chunks);
      var t := Run(BEGIN, all, 0);
      assert all == text + last.prose + Print(last.value);
      assert t.spans == s.spans + [Span(|text| + |last.prose|, |all|)];
      forall k | 0 <= k < |chunks|
        ensures t.spans[k].from <= t.spans[k].to <= |all|
        ensures all[t.spans[k].from..t.spans[k].to] == Print(chunks[k].value)
      {
        if k < |front| {
          assert t.spans[k] == s.spans[k] && chunks[k] == front[k];
          assert all[s.spans[k].from..s.spans[k].to] == text[s.spans[k].from..s.spans[k].to];
        }
      }
    }
  }

  /** For any JSON objects embedded in prose free of quotes and braces, the scan returns exactly
      their texts, in order. */
  lemma EmbeddedObjectsAreFound(chunks: seq<Chunk>, tail: string)
    requires GoodOutput(chunks) && Prose(tail)
    ensures var text := PrintOutput(chunks) + tail;
            var spans := Run(BEGIN, text, 0).spans;
            && (forall k :: 0 <= k < |spans| ==> spans[k].from <= spans[k].to <= |text|)
            && Slices(text, spans) == Objects(chunks)
  {
    hide Run, Feed, Print, Good;
    var front := PrintOutput(chunks);
    OutputScan(chunks);
    RunConcat(BEGIN, front, tail, 0);
    ProseIsSkipped(Run(BEGIN, front, 0), tail, |front|);
    var spans := Run(BEGIN, front, 0).spans;
    forall k | 0 <= k < |spans|
      ensures (front + tail)[spans[k].from..spans[k].to] == Print(chunks[k].value)
    {
      assert (front + tail)[spans[k].from..spans[k].to] == front[spans[k].from..spans[k].to];
    }
  }
}
