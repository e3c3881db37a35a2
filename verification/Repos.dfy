/** Reading `git status --porcelain=v1 -z`, and the scope test on the paths it reports. */
module Repos {
  import opened Wrappers

  const NUL := 0 as char

  /** Python's `split` on one character. */
  function Split(s: string, sep: char): (fields: seq<string>)
    ensures |fields| > 0
  {
    if s == "" then [""]
    else
      var rest := Split(s[1..], sep);
      if s[0] == sep then [""] + rest else [[s[0]] + rest[0]] + rest[1..]
  }

  function Join(fields: seq<string>, sep: char): string
    requires |fields| > 0
  {
    if |fields| == 1 then fields[0] else fields[0] + [sep] + Join(fields[1..], sep)
  }

  lemma {:induction false} SplitConcat(a: string, b: string, sep: char)
    ensures Split(a + [sep] + b, sep) == Split(a, sep) + Split(b, sep)
  {
    var whole := a + [sep] + b;
    if a == "" {
      assert whole[1..] == b;
    } else {
      assert whole[1..] == a[1..] + [sep] + b;
      SplitConcat(a[1..], b, sep);
    }
  }

  lemma {:induction false} SplitOne(s: string, sep: char)
    requires sep !in s
    ensures Split(s, sep) == [s]
  {
    if s != "" {
      assert s == [s[0]] + s[1..];
      SplitOne(s[1..], sep);
    }
  }

  lemma {:induction false} JoinSplit(s: string, sep: char)
    ensures Join(Split(s, sep), sep) == s
  {
    if s != "" {
      var rest := Split(s[1..], sep);
      JoinSplit(s[1..], sep);
      if s[0] == sep {
        assert ([""] + rest)[1..] == rest;
      } else {
        var fields := [[s[0]] + rest[0]] + rest[1..];
        assert fields[1..] == rest[1..];
      }
    }
  }

  lemma {:induction false} JoinConcat(a: seq<string>, b: seq<string>, sep: char)
    requires |a| > 0 && |b| > 0
    ensures Join(a + b, sep) == Join(a, sep) + [sep] + Join(b, sep)
  {
    if |a| == 1 {
      assert (a + b)[1..] == b;
    } else {
      assert (a + b)[1..] == a[1..] + b;
      JoinConcat(a[1..], b, sep);
    }
  }

  // -- status ------------------------------------------------------------------------------------

  /** A rename or a copy: the next field is the path it came from. */
  predicate Moved(status: string) {
    'R' in status || 'C' in status
  }

  /** The paths a list of NUL-terminated fields mentions. */
  function Paths(fields: seq<string>): seq<string>
    decreases |fields|
  {
    if fields == [] then []
    else if |fields[0]| < 4 then Paths(fields[1..])
    else if Moved(fields[0][..2]) && |fields| > 1 then
      [fields[0][3..], fields[1]] + Paths(fields[2..])
    else [fields[0][3..]] + Paths(fields[1..])
  }

  function Terminated(fields: seq<string>): seq<string>
    requires |fields| > 0
  {
    if fields[|fields| - 1] == "" then fields[..|fields| - 1] else fields
  }

  /** What one turn of the loop adds to the paths found so far. */
  lemma PathsFrom(done: seq<string>, fields: seq<string>, index: nat)
    requires index < |fields|
    ensures var entry := fields[index];
            done + Paths(fields[index..]) ==
            if |entry| < 4 then done + Paths(fields[index + 1..])
            else if Moved(entry[..2]) && index + 1 < |fields| then
              done + [entry[3..]] + [fields[index + 1]] + Paths(fields[index + 2..])
            else done + [entry[3..]] + Paths(fields[index + 1..])
  {
    hide Moved;
    var rest := fields[index..];
    assert rest[1..] == fields[index + 1..];
    assert |rest| > 1 ==> rest[1] == fields[index + 1] && rest[2..] == fields[index + 2..];
  }

  lemma PathsEnds(fields: seq<string>)
    ensures fields[0..] == fields && Paths(fields[|fields|..]) == []
  {
  }

  /** `porcelain_paths`. */
  method PorcelainPaths(raw: string) returns (paths: seq<string>)
    ensures paths == Paths(Terminated(Split(raw, NUL)))
  {
    var fields := Split(raw, NUL);
    if fields[|fields| - 1] == "" {
      fields := fields[..|fields| - 1];
    }
    PathsEnds(fields);
    hide Split, Paths, Moved;
    paths := [];
    var index := 0;
    while index < |fields|
      invariant index <= |fields|
      invariant paths + Paths(fields[index..]) == Paths(fields)
    {
      PathsFrom(paths, fields, index);
      var entry := fields[index];
      index := index + 1;
      if |entry| < 4 {
        continue;
      }
      var status, path := entry[..2], entry[3..];
      paths := paths + [path];
      if Moved(status) && index < |fields| {
        paths := paths + [fields[index]];
        index := index + 1;
      }
    }
  }

  /** One entry as git prints it: two status letters, a space, the path, and the original path of a
      rename or copy. */
  datatype Entry = Entry(x: char, y: char, path: string, original: Option<string>)

  predicate Printable(e: Entry) {
    && e.x != NUL && e.y != NUL && e.path != "" && NUL !in e.path
    && (e.original.Some? <==> e.x in {'R', 'C'} || e.y in {'R', 'C'})
    && (e.original.Some? ==> NUL !in e.original.value)
  }

  function Head(e: Entry): string {
    [e.x, e.y, ' '] + e.path
  }

  function PrintEntry(e: Entry): string {
    Head(e) + [NUL] + if e.original.Some? then e.original.value + [NUL] else ""
  }

  function Status(entries: seq<Entry>): string {
    if entries == [] then "" else PrintEntry(entries[0]) + Status(entries[1..])
  }

  function EntryFields(e: Entry): seq<string> {
    [Head(e)] + if e.original.Some? then [e.original.value] else []
  }

  function FieldsOf(entries: seq<Entry>): seq<string> {
    if entries == [] then [] else EntryFields(entries[0]) + FieldsOf(entries[1..])
  }

  function EntryPaths(e: Entry): seq<string> {
    [e.path] + if e.original.Some? then [e.original.value] else []
  }

  /** What the caller wants to hear: every path in order, the original after the new one. */
  function Mentioned(entries: seq<Entry>): seq<string> {
    if entries == [] then [] else EntryPaths(entries[0]) + Mentioned(entries[1..])
  }

  predicate AllPrintable(entries: seq<Entry>) {
    forall k :: 0 <= k < |entries| ==> Printable(entries[k])
  }

  lemma SplitTerminated(a: string, rest: string)
    requires NUL !in a
    ensures Split(a + [NUL] + rest, NUL) == [a] + Split(rest, NUL)
  {
    SplitOne(a, NUL);
    SplitConcat(a, rest, NUL);
    hide Split;
  }

  lemma SplitEntry(e: Entry, rest: string)
    requires Printable(e)
    ensures Split(PrintEntry(e) + rest, NUL) == EntryFields(e) + Split(rest, NUL)
  {
    hide Split, Moved;
    assert NUL !in Head(e);
    hide Head;
    if e.original.Some? {
      var original := e.original.value;
      SplitTerminated(original, rest);
      SplitTerminated(Head(e), original + [NUL] + rest);
      assert PrintEntry(e) + rest == Head(e) + [NUL] + (original + [NUL] + rest);
    } else {
      SplitTerminated(Head(e), rest);
      assert PrintEntry(e) + rest == Head(e) + [NUL] + rest;
    }
  }

  lemma {:induction false} SplitStatus(entries: seq<Entry>)
    requires AllPrintable(entries)
    ensures Split(Status(entries), NUL) == FieldsOf(entries) + [""]
  {
    SplitOne("", NUL);
    if entries != [] {
      SplitStatus(entries[1..]);
      SplitEntry(entries[0], Status(entries[1..]));
      hide Split, PrintEntry, EntryFields;
    }
  }

  lemma PathsOfEntry(e: Entry, rest: seq<string>)
    requires Printable(e)
    ensures Paths(EntryFields(e) + rest) == EntryPaths(e) + Paths(rest)
  {
    var fields := EntryFields(e) + rest;
    assert Head(e)[..2] == [e.x, e.y] && Head(e)[3..] == e.path;
    if e.original.Some? {
      assert fields[2..] == rest;
    } else {
      assert fields[1..] == rest;
    }
  }

  lemma {:induction false} PathsOfFields(entries: seq<Entry>)
    requires AllPrintable(entries)
    ensures Paths(FieldsOf(entries)) == Mentioned(entries)
  {
    if entries != [] {
      PathsOfFields(entries[1..]);
      PathsOfEntry(entries[0], FieldsOf(entries[1..]));
      hide Paths, EntryFields, EntryPaths;
    }
  }

  /** Parsing inverts printing, whatever the paths contain besides NUL. */
  lemma StatusRoundTrip(entries: seq<Entry>)
    requires AllPrintable(entries)
    ensures Paths(Terminated(Split(Status(entries), NUL))) == Mentioned(entries)
  {
    SplitStatus(entries);
    PathsOfFields(entries);
    assert (FieldsOf(entries) + [""])[..|FieldsOf(entries)|] == FieldsOf(entries);
  }

  // -- scope -------------------------------------------------------------------------------------


  /** `path_in_scope`. */
  method PathInScope(path: string, prefixes: seq<string>) returns (found: bool)
    ensures found <==> exists k :: 0 <= k < |prefixes| && (prefixes[k] == "." || Split(prefixes[k], '/') <= Split(path, '/'))
  {
    var k := 0;
    while k < |prefixes|
      invariant k <= |prefixes|
      invariant forall j :: 0 <= j < k ==> prefixes[j] != "." && !(Split(prefixes[j], '/') <= Split(path, '/'))
    {
      UnderPrefixIsBySegments(path, prefixes[k]);
      if prefixes[k] == "." {
        return true;
      }
      if path == prefixes[k] || prefixes[k] + "/" <= path {
        return true;
      }
      k := k + 1;
    }
    return false;
  }

  /** The string test is exactly the test on whole path segments. */
  lemma UnderPrefixIsBySegments(path: string, prefix: string)
    ensures path == prefix || prefix + "/" <= path <==> Split(prefix, '/') <= Split(path, '/')
  {
    var a, b := Split(prefix, '/'), Split(path, '/');
    if prefix + "/" <= path {
      var rest := path[|prefix| + 1..];
      assert path == prefix + "/" + rest;
      SplitConcat(prefix, rest, '/');
    }
    if a <= b {
      JoinSplit(prefix, '/');
      JoinSplit(path, '/');
      var rest := b[|a|..];
      assert b == a + rest;
      if rest == [] {
        assert a == b;
      } else {
        JoinConcat(a, rest, '/');
      }
    }
  }
}
