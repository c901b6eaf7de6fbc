/**
 * When parsing undoes `Stack.to_text`. For a non-empty list of sections
 * whose identifiers start with `[` and hold no other `[` and no newline, whose
 * keys are distinct, and whose keys and values hold no `=`, `[` or newline,
 * parsing the text with its final newline removed gives the sections back;
 * parsing the text as it is fails on the empty last line.
 */
module Codec {
  import opened Wrappers
  import opened Exceptions
  import opened Text
  import opened Models

  /** A key or value that survives a trip through a `key=value` line. */
  predicate PlainText(t: string) {
    '=' !in t && '[' !in t && '\n' !in t
  }

  predicate WellFormedEntry(e: Entry) {
    PlainText(e.key) && e.value.Some? && PlainText(e.value.value)
  }

  predicate WellFormedSection(s: Section) {
    && |s.identifier| > 0 && s.identifier[0] == '['
    && '[' !in s.identifier[1..] && '\n' !in s.identifier
    && forall i :: 0 <= i < |s.values| ==> WellFormedEntry(s.values[i])
  }

  predicate WellFormedStack(ss: seq<Section>) {
    |ss| > 0 && forall i :: 0 <= i < |ss| ==> WellFormedSection(ss[i])
  }

  /** The text without its last character. */
  function Chop(t: string): string
    requires |t| > 0
  {
    t[..|t| - 1]
  }

  /** One value line without its newline. */
  function PairLine(e: Entry): string {
    e.key + "=" + Str(e.value)
  }

  function Lines(vs: seq<Entry>): (r: seq<string>)
    ensures |r| == |vs|
    ensures forall i :: 0 <= i < |vs| ==> r[i] == PairLine(vs[i])
  {
    if |vs| == 0 then [] else [PairLine(vs[0])] + Lines(vs[1..])
  }

  /** A section's text without its final newline: its lines joined by newlines. */
  function Body(s: Section): string {
    Join([s.identifier] + Lines(s.values), '\n')
  }

  function Bodies(ss: seq<Section>): (r: seq<string>)
    ensures |r| == |ss|
    ensures forall i :: 0 <= i < |ss| ==> r[i] == Body(ss[i])
  {
    if |ss| == 0 then [] else [Body(ss[0])] + Bodies(ss[1..])
  }

  /** The value lines, each followed by a newline, are `ValuesText`. */
  lemma {:induction false} ValuesTextLines(vs: seq<Entry>)
    requires |vs| > 0
    ensures ValuesText(vs) == Join(Lines(vs), '\n') + "\n"
  {
    if |vs| > 1 {
      ValuesTextLines(vs[1..]);
      JoinCons(PairLine(vs[0]), Lines(vs[1..]), '\n');
      assert Lines(vs) == [PairLine(vs[0])] + Lines(vs[1..]);
      assert ValuesText(vs) == PairLine(vs[0]) + "\n" + (Join(Lines(vs[1..]), '\n') + "\n");
    } else {
      assert Lines(vs) == [PairLine(vs[0])];
      assert ValuesText(vs) == PairLine(vs[0]) + "\n" + "";
    }
  }

  /** `Section.to_text` is the section's body and a newline. */
  lemma SectionTextBody(s: Section)
    ensures SectionText(s) == Body(s) + "\n"
  {
    if |s.values| > 0 {
      ValuesTextLines(s.values);
      JoinCons(s.identifier, Lines(s.values), '\n');
      assert SectionText(s) == s.identifier + "\n" + (Join(Lines(s.values), '\n') + "\n");
    } else {
      assert [s.identifier] + Lines(s.values) == [s.identifier];
    }
  }

  /** `Stack.to_text` of a non-empty list is the sections' bodies joined by newlines, and a newline. */
  lemma {:induction false} StackTextBodies(ss: seq<Section>)
    requires |ss| > 0
    ensures StackText(ss) == Join(Bodies(ss), '\n') + "\n"
  {
    SectionTextBody(ss[0]);
    if |ss| > 1 {
      StackTextBodies(ss[1..]);
      JoinCons(Body(ss[0]), Bodies(ss[1..]), '\n');
      assert Bodies(ss) == [Body(ss[0])] + Bodies(ss[1..]);
      assert StackText(ss) == Body(ss[0]) + "\n" + (Join(Bodies(ss[1..]), '\n') + "\n");
    } else {
      assert Bodies(ss) == [Body(ss[0])];
      assert StackText(ss) == SectionText(ss[0]) + "";
    }
  }

  /** A text cut-ready for `__get_sections`: it opens with `[` and holds no other `[`. */
  predicate Opens(b: string) {
    |b| > 0 && b[0] == '[' && '[' !in b[1..]
  }

  /** Cutting bodies joined by newlines gives back the bodies: each cut drops exactly the joining newline. */
  lemma {:induction false} ChunksOfJoin(bodies: seq<string>)
    requires |bodies| > 0
    requires forall i :: 0 <= i < |bodies| ==> Opens(bodies[i])
    ensures Chunks(Join(bodies, '\n')) == bodies
  {
    var b := bodies[0];
    if |bodies| == 1 {
      assert Tail(b) == b[1..];
      ChunksLast(b);
    } else {
      var rest := bodies[1..];
      assert bodies == [b] + rest;
      assert forall i :: 0 <= i < |rest| ==> rest[i] == bodies[i + 1];
      JoinedCut(b, rest);
      ChunksCut(Join(bodies, '\n'), |b|);
      ChunksOfJoin(rest);
    }
  }

  /** Bodies joined by newlines start with the first body's `[`. */
  lemma JoinOpens(bodies: seq<string>)
    requires |bodies| > 0 && Opens(bodies[0])
    ensures |Join(bodies, '\n')| > 0 && Join(bodies, '\n')[0] == '['
  {
    if |bodies| > 1 {
      JoinCons(bodies[0], bodies[1..], '\n');
      assert bodies == [bodies[0]] + bodies[1..];
    }
  }

  /** The first cut of joined bodies falls on the newline after the first body. */
  lemma JoinedCut(b: string, rest: seq<string>)
    requires Opens(b) && |rest| > 0 && Opens(rest[0])
    ensures var stack := Join([b] + rest, '\n');
      && Find(Tail(stack), '[') == |b|
      && stack[..|b|] == b && stack[|b| + 1..] == Join(rest, '\n')
  {
    var joined := Join(rest, '\n');
    JoinCons(b, rest, '\n');
    JoinOpens(rest);
    AroundSeparator(b, '\n', joined);
    TailCut(b, joined);
  }

  /** Past its first character, a body, a newline and the next body's `[` have their first `[` right after the newline. */
  lemma TailCut(b: string, joined: string)
    requires Opens(b) && |joined| > 0 && joined[0] == '['
    ensures Find(Tail(b + "\n" + joined), '[') == |b|
  {
    var x := b[1..] + "\n";
    assert Tail(b + "\n" + joined) == x + joined;
    assert '[' !in x;
    AroundSeparator(x, '[', joined[1..]);
    assert x + joined == x + ['['] + joined[1..];
    FindAt(x + joined, '[', |x|);
  }

  /** A well-formed section's body opens with its identifier's `[` and holds no other. */
  lemma BodyOpens(s: Section)
    requires WellFormedSection(s)
    ensures Opens(Body(s))
  {
    var lines := Lines(s.values);
    var id := s.identifier;
    var parts := [id[1..]] + lines;
    forall i | 0 <= i < |parts| ensures '[' !in parts[i] {
      if i > 0 {
        assert parts[i] == PairLine(s.values[i - 1]);
        assert WellFormedEntry(s.values[i - 1]);
      }
    }
    NotInJoin(parts, '\n', '[');
    if |lines| > 0 {
      JoinCons(id, lines, '\n');
      JoinCons(id[1..], lines, '\n');
      assert Body(s)[1..] == Join(parts, '\n');
    } else {
      assert [id] + lines == [id] && parts == [id[1..]];
    }
  }

  /** A well-formed line splits at its `=` into exactly its key and value. */
  lemma ParsePairLine(e: Entry)
    requires WellFormedEntry(e)
    ensures ParsePair(PairLine(e)) == Ok((e.key, e.value.value))
  {
    var kv := [e.key, e.value.value];
    assert Join(kv, '=') == PairLine(e) by {
      JoinCons(e.key, [e.value.value], '=');
      assert [e.key] + [e.value.value] == kv;
    }
    SplitJoin(kv, '=');
  }

  /** Well-formed lines with fresh, distinct keys append their entries to the dict, in order. */
  lemma {:induction false} ParsePairsLines(acc: Values, vs: seq<Entry>)
    requires DistinctKeys(acc + vs)
    requires forall i :: 0 <= i < |vs| ==> WellFormedEntry(vs[i])
    ensures ParsePairs(acc, Lines(vs)) == Ok(acc + vs)
    decreases |vs|
  {
    if |vs| == 0 {
      assert acc + vs == acc;
    } else {
      var e := vs[0];
      ParsePairLine(e);
      assert Lines(vs)[0] == PairLine(e);
      assert Lines(vs)[1..] == Lines(vs[1..]);
      assert e.key !in Keys(acc) by {
        forall j | 0 <= j < |acc| ensures acc[j].key != e.key {
          assert (acc + vs)[j] == acc[j] && (acc + vs)[|acc|] == e;
        }
      }
      var acc' := acc + [e];
      assert acc' + vs[1..] == acc + vs;
      PutPosition(acc, e.key, e.value);
      ParsePairsLines(acc', vs[1..]);
    }
  }

  /** The lines of a well-formed section hold no newline. */
  lemma SectionLinesPlain(s: Section)
    requires WellFormedSection(s)
    ensures forall i :: 0 <= i < |[s.identifier] + Lines(s.values)| ==> '\n' !in ([s.identifier] + Lines(s.values))[i]
  {
    var parts := [s.identifier] + Lines(s.values);
    forall i | 0 <= i < |parts| ensures '\n' !in parts[i] {
      if i > 0 {
        assert parts[i] == PairLine(s.values[i - 1]);
        PlainLine(s.values[i - 1]);
      }
    }
  }

  /** A well-formed entry's line holds no newline. */
  lemma PlainLine(e: Entry)
    requires WellFormedEntry(e)
    ensures '\n' !in PairLine(e)
  {
    assert Str(e.value) == e.value.value;
    assert PairLine(e) == e.key + "=" + e.value.value;
  }

  /** A well-formed section's body splits at its newlines into its identifier and its value lines. */
  lemma BodyLines(s: Section)
    requires WellFormedSection(s)
    ensures Split(Body(s), '\n') == [s.identifier] + Lines(s.values)
  {
    SectionLinesPlain(s);
    SplitJoin([s.identifier] + Lines(s.values), '\n');
  }

  /** A well-formed section's body parses back to the section. */
  lemma ParseBody(s: Section)
    requires WellFormedSection(s)
    ensures ParseChunk(Body(s)) == Ok(s)
  {
    var lines := Split(Body(s), '\n');
    BodyLines(s);
    assert lines[0] == s.identifier && lines[1..] == Lines(s.values);
    ParsePairsLines([], s.values);
    assert [] + s.values == s.values;
    ParseChunkOf(Body(s), s.values);
  }

  /** Parsing the bodies of well-formed sections gives the sections back. */
  lemma {:induction false} ParseBodies(ss: seq<Section>)
    requires forall i :: 0 <= i < |ss| ==> WellFormedSection(ss[i])
    ensures ParseSections(Bodies(ss)) == Ok(ss)
  {
    if |ss| > 0 {
      ParseBody(ss[0]);
      ParseBodies(ss[1..]);
      var bs := Bodies(ss);
      assert bs[0] == Body(ss[0]) && bs[1..] == Bodies(ss[1..]);
      assert [ss[0]] + ss[1..] == ss;
    }
  }

  /** Splitting the text of a well-formed stack gives its sections' bodies. */
  lemma ChunksOfStackText(ss: seq<Section>)
    requires WellFormedStack(ss)
    ensures Chop(StackText(ss)) == Join(Bodies(ss), '\n')
    ensures Chunks(Chop(StackText(ss))) == Bodies(ss)
  {
    StackTextBodies(ss);
    forall i | 0 <= i < |ss| ensures Opens(Bodies(ss)[i]) {
      BodyOpens(ss[i]);
    }
    ChunksOfJoin(Bodies(ss));
  }

  /** Round trip: `Stack.to_text` without its final newline parses back to the same sections. */
  lemma RoundTrip(ss: seq<Section>)
    requires WellFormedStack(ss)
    ensures ParseStack(Chop(StackText(ss))) == Ok(ss)
  {
    ChunksOfStackText(ss);
    ParseBodies(ss);
  }

  /**
   * Keeping the final newline makes the parse fail: the last chunk ends in a
   * newline, so its last line is empty and has no `=`.
   */
  lemma TrailingNewlineFails(ss: seq<Section>)
    requires WellFormedStack(ss)
    ensures ParseStack(StackText(ss)) == Err(IndexError)
  {
    StackTextChunks(ss);
    var cs := Chunks(StackText(ss));
    ExtendLastEnds(Bodies(ss));
    ChunkEndingInNewlineFails(cs[|cs| - 1]);
    ParseSectionsEach(cs);
  }

  /** The chunks of `Stack.to_text` are the bodies, the last one followed by the final newline. */
  lemma StackTextChunks(ss: seq<Section>)
    requires WellFormedStack(ss)
    ensures |ss| > 0 && Chunks(StackText(ss)) == ExtendLast(Bodies(ss), "\n")
  {
    StackTextBodies(ss);
    var body := Join(Bodies(ss), '\n');
    assert StackText(ss) == body + "\n" && Chop(StackText(ss)) == body;
    ChunksOfStackText(ss);
    ChunksAppendNewline(body);
  }

  /** Extending the last piece by a newline leaves the count alone and makes that piece end in one. */
  lemma ExtendLastEnds(cs: seq<string>)
    requires |cs| > 0
    ensures var e := ExtendLast(cs, "\n");
      && |e| == |cs| && |e[|cs| - 1]| > 0 && e[|cs| - 1][|e[|cs| - 1]| - 1] == '\n'
  {
  }

  /** A chunk that ends in a newline has an empty last line, so it fails to parse. */
  lemma ChunkEndingInNewlineFails(c: string)
    requires |c| > 0 && c[|c| - 1] == '\n'
    ensures ParseChunk(c) == Err(IndexError)
  {
    LastLineEmpty(c);
    EmptyLastLineFails(Split(c, '\n'));
    ParseChunkFails(c);
  }

  /** Value lines that end with an empty one fail to parse. */
  lemma EmptyLastLineFails(lines: seq<string>)
    requires |lines| >= 2 && Last(lines) == ""
    ensures ParsePairs([], lines[1..]).Err?
  {
    ParsePairsFails([], lines[1..]);
    assert lines[1..][|lines| - 2] == Last(lines);
  }

  /** A text ending in a newline splits into at least two lines, the last one empty. */
  lemma {:induction false} LastLineEmpty(t: string)
    requires |t| > 0 && t[|t| - 1] == '\n'
    ensures |Split(t, '\n')| >= 2 && Last(Split(t, '\n')) == ""
    decreases |t|
  {
    assert t[|t| - 1] in t;
    var k := Find(t, '\n');
    var rest := t[k + 1..];
    SplitUnfold(t, '\n');
    if |rest| > 0 {
      assert rest[|rest| - 1] == t[|t| - 1];
      LastLineEmpty(rest);
      LastOfCons(t[..k], Split(rest, '\n'));
    } else {
      assert Split(rest, '\n') == [""];
    }
  }

  /** The chunks with `x` added to the last one. */
  function ExtendLast(cs: seq<string>, x: string): seq<string>
    requires |cs| > 0
  {
    cs[..|cs| - 1] + [cs[|cs| - 1] + x]
  }

  lemma ExtendLastCons(c: string, ds: seq<string>, x: string)
    requires |ds| > 0
    ensures ExtendLast([c] + ds, x) == [c] + ExtendLast(ds, x)
  {
    var cs := [c] + ds;
    assert cs[..|cs| - 1] == [c] + ds[..|ds| - 1];
  }

  /** A newline added to a text with no `[` past its first character adds none. */
  lemma AppendNewlineLast(t: string)
    requires Find(Tail(t), '[') == -1
    ensures Find(Tail(t + "\n"), '[') == -1
  {
    if |t| > 0 {
      assert Tail(t + "\n") == Tail(t) + "\n";
    }
  }

  /** A newline added at the end leaves the next `[` and the text before it where they were. */
  lemma AppendNewlineCut(t: string, k: int)
    requires k == Find(Tail(t), '[') && k != -1
    ensures Find(Tail(t + "\n"), '[') == k
    ensures (t + "\n")[..k] == t[..k] && (t + "\n")[k + 1..] == t[k + 1..] + "\n"
  {
    var u := t + "\n";
    assert Tail(u) == Tail(t) + "\n";
    assert Tail(u)[..k] == Tail(t)[..k];
    FindAt(Tail(u), '[', k);
    SliceOfAppend(t, "\n", k);
    SliceOfAppend(t, "\n", k + 1);
  }

  /** A newline added at the end (where no `[` follows) lands in the last chunk. */
  lemma {:induction false} ChunksAppendNewline(t: string)
    ensures Chunks(t + "\n") == ExtendLast(Chunks(t), "\n")
    decreases |t|
  {
    var k := Find(Tail(t), '[');
    var u := t + "\n";
    if k == -1 {
      AppendNewlineLast(t);
      ChunksLast(t);
      ChunksLast(u);
    } else {
      AppendNewlineCut(t, k);
      ChunksCut(t, k);
      ChunksCut(u, k);
      ChunksAppendNewline(t[k + 1..]);
      ExtendLastCons(t[..k], Chunks(t[k + 1..]), "\n");
    }
  }
}

/** The stack-equality test of the repository, as lemmas and a method over the parsed stacks. */
module CodecScenario {
  import opened Wrappers
  import opened Text
  import opened Models
  import opened Codec

  function Pair(k: string, v: string): Entry {
    Entry(k, Some(v))
  }

  /** The raw stack the test parses twice: two sections of the same shape. */
  const Raw1: string := "[1.0]0\nfoo=bar\nfoob=barf" + "\n" + "[1.0]0\nfoo=bar\nfoob=barf"
  /** The raw stack the test parses next: other values and a different second identifier. */
  const Raw2: string := "[1.0]0\nfoo=rab\nfoob=fabr" + "\n" + "[2.0]0\nfoo=rab\nfoob=fabr"

  const First: Section := Section("[1.0]0", [Pair("foo", "bar"), Pair("foob", "barf")])
  const Second: Section := Section("[1.0]0", [Pair("foo", "rab"), Pair("foob", "fabr")])
  const Third: Section := Section("[2.0]0", [Pair("foo", "rab"), Pair("foob", "fabr")])

  /** The body of a section with the two keys `foo` and `foob`. */
  lemma BodyOfTwo(s: Section, v: string, w: string)
    requires s.values == [Pair("foo", v), Pair("foob", w)]
    ensures Body(s) == s.identifier + "\n" + ("foo=" + v) + "\n" + ("foob=" + w)
  {
    assert Lines(s.values) == ["foo" + "=" + v, "foob" + "=" + w];
    var parts := [s.identifier] + Lines(s.values);
    JoinCons(parts[0], parts[1..], '\n');
    JoinCons(parts[1], parts[2..], '\n');
    assert parts[1..] == [parts[1]] + parts[2..];
  }

  /** Parsing a text that is the bodies of two well-formed sections joined by a newline. */
  lemma ParseTwo(raw: string, a: Section, b: Section)
    requires WellFormedSection(a) && WellFormedSection(b)
    requires raw == Body(a) + "\n" + Body(b)
    ensures ParseStack(raw) == Ok([a, b])
  {
    var ss := [a, b];
    assert WellFormedStack(ss);
    JoinCons(Body(a), [Body(b)], '\n');
    assert Bodies(ss) == [Body(a)] + [Body(b)];
    ChunksOfStackText(ss);
    RoundTrip(ss);
  }

  /** A section with the two keys `foo` and `foob` is well formed when its identifier and values are. */
  lemma TwoKeysWellFormed(s: Section, v: string, w: string)
    requires s.values == [Pair("foo", v), Pair("foob", w)]
    requires PlainText(v) && PlainText(w)
    requires |s.identifier| > 0 && s.identifier[0] == '[' && '[' !in s.identifier[1..] && '\n' !in s.identifier
    ensures WellFormedSection(s)
  {
    assert PlainText("foo") && PlainText("foob");
  }

  lemma PlainValues()
    ensures PlainText("bar") && PlainText("barf")
    ensures PlainText("rab") && PlainText("fabr")
  {
  }

  lemma PlainIdentifiers()
    ensures '[' !in "1.0]0" && '\n' !in "[1.0]0"
    ensures '[' !in "2.0]0" && '\n' !in "[2.0]0"
  {
  }

  lemma WellFormedScenario()
    ensures WellFormedSection(First) && WellFormedSection(Second) && WellFormedSection(Third)
  {
    PlainValues();
    PlainIdentifiers();
    assert First.identifier[1..] == "1.0]0" && Third.identifier[1..] == "2.0]0";
    TwoKeysWellFormed(First, "bar", "barf");
    TwoKeysWellFormed(Second, "rab", "fabr");
    TwoKeysWellFormed(Third, "rab", "fabr");
  }

  lemma Raw1Text()
    ensures Raw1 == Body(First) + "\n" + Body(First)
  {
    FirstBody();
  }

  lemma Raw2Text()
    ensures Raw2 == Body(Second) + "\n" + Body(Third)
  {
    SecondBody();
    ThirdBody();
  }

  /** The text of the two-key body, written out. */
  lemma TwoKeysText(id: string, v: string, w: string, t: string)
    requires t == id + "\n" + ("foo=" + v) + "\n" + ("foob=" + w)
    ensures t == id + "\nfoo=" + v + "\nfoob=" + w
  {
  }

  lemma FirstBody()
    ensures Body(First) == "[1.0]0\nfoo=bar\nfoob=barf"
  {
    BodyOfTwo(First, "bar", "barf");
    TwoKeysText("[1.0]0", "bar", "barf", Body(First));
    assert "[1.0]0" + "\nfoo=" == "[1.0]0\nfoo=";
    assert "[1.0]0\nfoo=" + "bar" == "[1.0]0\nfoo=bar";
    assert "[1.0]0\nfoo=bar" + "\nfoob=" == "[1.0]0\nfoo=bar\nfoob=";
  }

  lemma SecondBody()
    ensures Body(Second) == "[1.0]0\nfoo=rab\nfoob=fabr"
  {
    BodyOfTwo(Second, "rab", "fabr");
    TwoKeysText("[1.0]0", "rab", "fabr", Body(Second));
    assert "[1.0]0" + "\nfoo=" == "[1.0]0\nfoo=";
    assert "[1.0]0\nfoo=" + "rab" == "[1.0]0\nfoo=rab";
    assert "[1.0]0\nfoo=rab" + "\nfoob=" == "[1.0]0\nfoo=rab\nfoob=";
  }

  lemma ThirdBody()
    ensures Body(Third) == "[2.0]0\nfoo=rab\nfoob=fabr"
  {
    BodyOfTwo(Third, "rab", "fabr");
    TwoKeysText("[2.0]0", "rab", "fabr", Body(Third));
    assert "[2.0]0" + "\nfoo=" == "[2.0]0\nfoo=";
    assert "[2.0]0\nfoo=" + "rab" == "[2.0]0\nfoo=rab";
    assert "[2.0]0\nfoo=rab" + "\nfoob=" == "[2.0]0\nfoo=rab\nfoob=";
  }

  lemma ParseRaw1()
    ensures ParseStack(Raw1) == Ok([First, First])
  {
    WellFormedScenario();
    Raw1Text();
    ParseTwo(Raw1, First, First);
  }

  lemma ParseRaw2()
    ensures ParseStack(Raw2) == Ok([Second, Third])
  {
    WellFormedScenario();
    Raw2Text();
    ParseTwo(Raw2, Second, Third);
  }

  /** `test_stack_equals`: a text is schema-equal to itself, and not to the second text. */
  lemma StackEqualsScenario()
    ensures ParseStack(Raw1).Ok? && ParseStack(Raw2).Ok?
    ensures SchemaEqual(ParseStack(Raw1).value, ParseStack(Raw1).value)
    ensures !SchemaEqual(ParseStack(Raw1).value, ParseStack(Raw2).value)
  {
    ParseRaw1();
    ParseRaw2();
    SchemaScenario();
  }

  lemma SchemaScenario()
    ensures SchemaEqual([First, First], [First, First])
    ensures !SchemaEqual([First, First], [Second, Third])
  {
    SchemaEqualIsEquivalence([First, First], [First, First], [First, First]);
    assert !SameShape(First, Third) by {
      assert First.identifier[1] != Third.identifier[1];
    }
    assert [First, First][1] == First && [Second, Third][1] == Third;
  }

  /** `test_stack_equals` on the stack objects: two stacks of `Raw1` compare equal; after re-parsing one with `Raw2` they do not. */
  method StackEqualsTest() returns (before: bool, after: bool)
    ensures before && !after
  {
    StackEqualsScenario();
    var stack1 := Stack.New(Raw1);
    var stack2 := Stack.New(Raw1);
    var s1, s2 := stack1.value, stack2.value;
    before := s1.Equals(s2);
    var parsed := s2.Parse(Raw2);
    after := s1.Equals(s2);
  }

  /** A text whose second character is `[`: its first character is dropped, not kept as a chunk. */
  lemma StrayFirstCharacter()
    ensures Chunks("a[b") == ["", "[b"]
    ensures Dropped("a[b") == ['a']
  {
    assert Tail("a[b") == "[b";
    ChunksCut("a[b", 0);
    DroppedCut("a[b", 0);
    assert "a[b"[1..] == "[b";
    assert Find(Tail("[b"), '[') == -1;
    ChunksLast("[b");
    DroppedLast("[b");
  }
}
