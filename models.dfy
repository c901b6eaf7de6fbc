/**
 * The bracketed-section text format of `tplink_archer/models.py`: sections
 * (an identifier line followed by `key=value` lines), the stack that splits a
 * response into sections and writes them back, and the settings records
 * (static DHCP leases, port-forwarding rules) that are addressed by the
 * identifier of the section they came from.
 */
module Models {
  import opened Wrappers
  import opened Exceptions
  import opened Text

  /** The two Wi-Fi bands a client listing can be asked for. */
  datatype WifiFreq = Wifi2G | Wifi5G

  // ---------------------------------------------------------------------------
  // Section values: an insertion-ordered Python dict from strings to values
  // ---------------------------------------------------------------------------

  /**
   * One entry of a section's dict. A parsed section only holds strings; a
   * section built by `to_section` may hold Python's `None` (a field that was
   * missing from the response it was read from).
   */
  datatype Entry = Entry(key: string, value: Option<string>)

  predicate DistinctKeys(vs: seq<Entry>) {
    forall i, j | 0 <= i < j < |vs| :: vs[i].key != vs[j].key
  }

  /** A Python dict: entries in insertion order, each key at most once. */
  type Values = vs: seq<Entry> | DistinctKeys(vs)

  function Keys(vs: seq<Entry>): set<string> {
    set e | e in vs :: e.key
  }

  /** `values.get(key)`: the stored value, or `None` when the key is absent. */
  function Get(vs: Values, key: string): (r: Option<string>)
    ensures key !in Keys(vs) ==> r == None
    ensures forall i :: 0 <= i < |vs| && vs[i].key == key ==> r == vs[i].value
  {
    if |vs| == 0 then None
    else if vs[0].key == key then vs[0].value
    else Get(vs[1..], key)
  }

  lemma KeysCons(vs: seq<Entry>)
    requires |vs| > 0
    ensures Keys(vs) == {vs[0].key} + Keys(vs[1..])
  {
    assert vs == [vs[0]] + vs[1..];
  }

  /** The position of `key` in the dict, or -1 when it is absent. */
  function KeyIndex(vs: seq<Entry>, key: string): (i: int)
    ensures -1 <= i < |vs|
    ensures i == -1 ==> key !in Keys(vs)
    ensures i >= 0 ==> vs[i].key == key
  {
    if |vs| == 0 then -1
    else if vs[0].key == key then 0
    else
      var i := KeyIndex(vs[1..], key);
      KeysCons(vs);
      if i == -1 then -1 else i + 1
  }

  /** A key that is not in the dict can be appended. */
  lemma AppendFresh(vs: Values, e: Entry)
    requires e.key !in Keys(vs)
    ensures DistinctKeys(vs + [e])
  {
    var r := vs + [e];
    forall i, j | 0 <= i < j < |r| ensures r[i].key != r[j].key {
      if j == |vs| {
        assert r[i] == vs[i] && vs[i] in vs;
      }
    }
  }

  /** Replacing an entry's value keeps the keys distinct. */
  lemma ReplaceValue(vs: Values, i: int, value: Option<string>)
    requires 0 <= i < |vs|
    ensures DistinctKeys(vs[i := Entry(vs[i].key, value)])
  {
  }

  /**
   * `values.update({key: value})`: an existing key keeps its position and
   * takes the new value; a new key is appended at the end.
   */
  function Put(vs: Values, key: string, value: Option<string>): (r: Values)
    ensures |r| >= 1
  {
    var i := KeyIndex(vs, key);
    if i == -1 then
      AppendFresh(vs, Entry(key, value));
      vs + [Entry(key, value)]
    else
      ReplaceValue(vs, i, value);
      vs[i := Entry(key, value)]
  }

  /** Where an update puts the entry: in place of the old entry of that key, or at the end. */
  lemma PutPosition(vs: Values, key: string, value: Option<string>)
    ensures key in Keys(vs) ==> exists i :: 0 <= i < |vs| && vs[i].key == key && Put(vs, key, value) == vs[i := Entry(key, value)]
    ensures key !in Keys(vs) ==> Put(vs, key, value) == vs + [Entry(key, value)]
  {
    var i := KeyIndex(vs, key);
    if i == -1 {
    } else {
      assert vs[i] in vs;
    }
  }

  /** Two dicts whose keys agree position by position have the same key set. */
  lemma KeysPointwise(a: seq<Entry>, b: seq<Entry>)
    requires |a| == |b| && forall j :: 0 <= j < |a| ==> a[j].key == b[j].key
    ensures Keys(a) == Keys(b)
  {
    forall k | k in Keys(a) ensures k in Keys(b) {
      var e :| e in a && e.key == k;
      var j :| 0 <= j < |a| && a[j] == e;
      assert b[j] in b;
    }
    forall k | k in Keys(b) ensures k in Keys(a) {
      var e :| e in b && e.key == k;
      var j :| 0 <= j < |b| && b[j] == e;
      assert a[j] in a;
    }
  }

  /** After an update the dict has the old keys and the new one. */
  lemma PutKeys(vs: Values, key: string, value: Option<string>)
    ensures Keys(Put(vs, key, value)) == Keys(vs) + {key}
  {
    var i := KeyIndex(vs, key);
    var r := Put(vs, key, value);
    if i == -1 {
      KeysSnoc(vs, Entry(key, value));
    } else {
      assert vs[i] in vs;
      KeysPointwise(r, vs);
    }
  }

  /** Appending an entry adds its key. */
  lemma KeysSnoc(vs: seq<Entry>, e: Entry)
    ensures Keys(vs + [e]) == Keys(vs) + {e.key}
  {
    var r := vs + [e];
    forall k | k in Keys(r) ensures k in Keys(vs) + {e.key} {
      var x :| x in r && x.key == k;
      if x != e {
        assert x in vs;
      }
    }
    assert r[|vs|] == e;
  }

  /** After an update the key holds the new value. */
  lemma PutGet(vs: Values, key: string, value: Option<string>)
    ensures Get(Put(vs, key, value), key) == value
  {
    var i := KeyIndex(vs, key);
    var r := Put(vs, key, value);
    if i == -1 {
      assert r[|vs|] == Entry(key, value);
    } else {
      assert r[i] == Entry(key, value);
    }
  }

  /** An update leaves every other key's value alone. */
  lemma PutOther(vs: Values, key: string, value: Option<string>, k: string)
    requires k != key
    ensures Get(Put(vs, key, value), k) == Get(vs, k)
  {
    var r := Put(vs, key, value);
    var j := KeyIndex(vs, k);
    if j == -1 {
      PutKeys(vs, key, value);
    } else {
      assert r[j] == vs[j];
    }
  }

  // ---------------------------------------------------------------------------
  // Section
  // ---------------------------------------------------------------------------

  /** One bracketed section: its identifier line and its ordered values. */
  datatype Section = Section(identifier: string, values: Values)

  /** How an f-string renders a value: the string itself, or `None`. */
  function Str(v: Option<string>): string {
    match v
    case None => "None"
    case Some(s) => s
  }

  function EntryText(e: Entry): string {
    e.key + "=" + Str(e.value) + "\n"
  }

  /** The `key=value\n` lines of a section, in insertion order. */
  function ValuesText(vs: seq<Entry>): (r: string)
    ensures r == [] || r[|r| - 1] == '\n'
  {
    if |vs| == 0 then "" else EntryText(vs[0]) + ValuesText(vs[1..])
  }

  /** The text `Section.to_text` produces: it starts with the identifier line and always ends in a newline. */
  function SectionText(s: Section): (r: string)
    ensures |r| > |s.identifier| && r[..|s.identifier| + 1] == s.identifier + "\n"
    ensures r[|r| - 1] == '\n'
  {
    s.identifier + "\n" + ValuesText(s.values)
  }

  lemma {:induction false} ValuesTextAppend(a: seq<Entry>, b: seq<Entry>)
    ensures ValuesText(a + b) == ValuesText(a) + ValuesText(b)
  {
    if |a| > 0 {
      assert (a + b)[0] == a[0] && (a + b)[1..] == a[1..] + b;
      ValuesTextAppend(a[1..], b);
      assert ValuesText(a + b) == EntryText(a[0]) + (ValuesText(a[1..]) + ValuesText(b));
    } else {
      assert a + b == b;
    }
  }

  /** The text of the first `i + 1` entries is the text of the first `i` and the line of entry `i`. */
  lemma ValuesTextStep(vs: seq<Entry>, i: int)
    requires 0 <= i < |vs|
    ensures ValuesText(vs[..i + 1]) == ValuesText(vs[..i]) + EntryText(vs[i])
  {
    ValuesTextAppend(vs[..i], [vs[i]]);
    assert vs[..i + 1] == vs[..i] + [vs[i]];
    assert ValuesText([vs[i]]) == EntryText(vs[i]) + "";
  }

  /** Looking up the key of an entry gives that entry's value. */
  lemma GetAt(vs: Values, i: int)
    requires 0 <= i < |vs|
    ensures Get(vs, vs[i].key) == vs[i].value
  {
  }

  /** `Section.to_text`: the identifier line, then one `key=value` line per key in insertion order. */
  method SectionToText(s: Section) returns (text: string)
    ensures text == SectionText(s)
  {
    var values := "";
    for i := 0 to |s.values|
      invariant values == ValuesText(s.values[..i])
    {
      var key := s.values[i].key;
      var value := Get(s.values, key);
      var line := key + "=" + Str(value) + "\n";
      GetAt(s.values, i);
      ValuesTextStep(s.values, i);
      values := values + line;
    }
    assert s.values[..|s.values|] == s.values;
    text := s.identifier + "\n" + values;
  }

  /** The text `Stack.to_text` produces: the sections' texts in order. */
  function StackText(ss: seq<Section>): string {
    if |ss| == 0 then "" else SectionText(ss[0]) + StackText(ss[1..])
  }

  lemma {:induction false} StackTextAppend(a: seq<Section>, b: seq<Section>)
    ensures StackText(a + b) == StackText(a) + StackText(b)
  {
    if |a| > 0 {
      assert (a + b)[0] == a[0] && (a + b)[1..] == a[1..] + b;
      StackTextAppend(a[1..], b);
      assert StackText(a + b) == SectionText(a[0]) + (StackText(a[1..]) + StackText(b));
    } else {
      assert a + b == b;
    }
  }

  /** The text of the first `i + 1` sections is the text of the first `i` and the text of section `i`. */
  lemma StackTextStep(ss: seq<Section>, i: int)
    requires 0 <= i < |ss|
    ensures StackText(ss[..i + 1]) == StackText(ss[..i]) + SectionText(ss[i])
  {
    StackTextAppend(ss[..i], [ss[i]]);
    assert ss[..i + 1] == ss[..i] + [ss[i]];
    assert StackText([ss[i]]) == SectionText(ss[i]) + "";
  }

  // ---------------------------------------------------------------------------
  // Splitting a response into section chunks (`Stack.__get_sections`)
  // ---------------------------------------------------------------------------

  /**
   * The chunks `__get_sections` cuts `stack` into: it looks for the next `[`
   * after the first character; the text before the character just in front of
   * that `[` is one chunk, and the rest, from the `[` on, is split again.
   */
  function Chunks(stack: string): (r: seq<string>)
    ensures |r| >= 1
    decreases |stack|
  {
    var k := Find(Tail(stack), '[');
    if k == -1 then [stack] else [stack[..k]] + Chunks(stack[k + 1..])
  }

  /** One cut of `Chunks`, at the next `[` after the first character. */
  lemma ChunksCut(stack: string, k: int)
    requires k == Find(Tail(stack), '[') && k != -1
    ensures k < |stack| && Chunks(stack) == [stack[..k]] + Chunks(stack[k + 1..])
  {
  }

  /** The last chunk: no `[` after the first character. */
  lemma ChunksLast(stack: string)
    requires Find(Tail(stack), '[') == -1
    ensures Chunks(stack) == [stack]
  {
  }

  /** The text after a cut, past its first character, is what follows the `[` in the tail. */
  lemma TailAfterCut(stack: string, k: int)
    requires 0 <= k < |Tail(stack)|
    ensures Tail(stack)[k + 1..] == Tail(stack[k + 1..])
  {
  }

  /** The chunk before a cut, past its first character, lies in front of the cut in the tail. */
  lemma TailBeforeCut(stack: string, k: int)
    requires 0 <= k < |Tail(stack)|
    ensures forall c :: c in Tail(stack[..k]) ==> c in Tail(stack)[..k]
  {
    if k > 0 {
      assert Tail(stack[..k]) == Tail(stack)[..k - 1];
      assert forall i :: 0 <= i < k - 1 ==> Tail(stack)[..k - 1][i] == Tail(stack)[..k][i];
    }
  }

  /** One cut of `__get_sections`: one `[` fewer after the cut, and none in the chunk past its first character. */
  lemma CutAt(stack: string, k: int)
    requires k == Find(Tail(stack), '[') && k != -1
    ensures multiset(Tail(stack))['['] == multiset(Tail(stack[k + 1..]))['['] + 1
    ensures '[' !in Tail(stack[..k])
  {
    var t := Tail(stack);
    CountAround(t, k, '[');
    CountAbsent(t[..k], '[');
    TailAfterCut(stack, k);
    TailBeforeCut(stack, k);
  }

  /**
   * There is one chunk more than there are `[` after the first character, and
   * no chunk holds a `[` except as its first character.
   */
  lemma {:induction false} ChunksShape(stack: string)
    ensures |Chunks(stack)| == multiset(Tail(stack))['['] + 1
    ensures forall i :: 0 <= i < |Chunks(stack)| ==> '[' !in Tail(Chunks(stack)[i])
    decreases |stack|
  {
    var k := Find(Tail(stack), '[');
    if k == -1 {
      ChunksLast(stack);
      CountAbsent(Tail(stack), '[');
    } else {
      CutAt(stack, k);
      ChunksShape(stack[k + 1..]);
      ChunksCut(stack, k);
      var cs := Chunks(stack);
      forall i | 0 <= i < |cs| ensures '[' !in Tail(cs[i]) {
        if i > 0 {
          assert cs[i] == Chunks(stack[k + 1..])[i - 1];
        }
      }
    }
  }

  /** The character in front of each `[` that `__get_sections` throws away. */
  function Dropped(stack: string): seq<char>
    decreases |stack|
  {
    var k := Find(Tail(stack), '[');
    if k == -1 then [] else [stack[k]] + Dropped(stack[k + 1..])
  }

  /** One cut of `Dropped`: the character in front of the next `[`, then the rest. */
  lemma DroppedCut(stack: string, k: int)
    requires k == Find(Tail(stack), '[') && k != -1
    ensures k < |stack| && Dropped(stack) == [stack[k]] + Dropped(stack[k + 1..])
  {
  }

  /** Nothing is dropped when there is no `[` after the first character. */
  lemma DroppedLast(stack: string)
    requires Find(Tail(stack), '[') == -1
    ensures Dropped(stack) == []
  {
  }

  /** Each chunk but the last, followed by its dropped character, then the last chunk. */
  function Glue(chunks: seq<string>, drops: seq<char>): string
    requires |chunks| == |drops| + 1
  {
    if |drops| == 0 then chunks[0] else chunks[0] + [drops[0]] + Glue(chunks[1..], drops[1..])
  }

  /** One step of `Glue`: the first chunk, its dropped character, then the rest glued. */
  lemma GlueCons(chunk: string, drop: char, chunks: seq<string>, drops: seq<char>)
    requires |chunks| == |drops| + 1
    ensures Glue([chunk] + chunks, [drop] + drops) == chunk + [drop] + Glue(chunks, drops)
  {
    assert ([chunk] + chunks)[1..] == chunks;
    assert ([drop] + drops)[1..] == drops;
  }

  /** Putting the dropped characters back between the chunks gives back the input. */
  lemma {:induction false} ChunksReassemble(stack: string)
    ensures |Chunks(stack)| == |Dropped(stack)| + 1
    ensures Glue(Chunks(stack), Dropped(stack)) == stack
    decreases |stack|
  {
    var k := Find(Tail(stack), '[');
    if k == -1 {
      ChunksLast(stack);
      DroppedLast(stack);
    } else {
      var rest := stack[k + 1..];
      ChunksCut(stack, k);
      DroppedCut(stack, k);
      ChunksReassemble(rest);
      GlueCons(stack[..k], stack[k], Chunks(rest), Dropped(rest));
      SliceAround(stack, k);
    }
  }

  /**
   * Each dropped character is the one directly in front of a `[`: in the text
   * glued back after it, the next character is that `[`.
   */
  lemma {:induction false} DroppedBeforeOpen(stack: string, i: int)
    requires 0 <= i < |Dropped(stack)|
    ensures |Chunks(stack)| == |Dropped(stack)| + 1
    ensures var rest := Glue(Chunks(stack)[i + 1..], Dropped(stack)[i + 1..]);
      |rest| > 0 && rest[0] == '['
    decreases |stack|
  {
    ChunksReassemble(stack);
    var k := Find(Tail(stack), '[');
    if k == -1 {
      DroppedLast(stack);
    } else {
      var rest := stack[k + 1..];
      ChunksCut(stack, k);
      DroppedCut(stack, k);
      if i == 0 {
        assert Chunks(stack)[1..] == Chunks(rest);
        assert Dropped(stack)[1..] == Dropped(rest);
        ChunksReassemble(rest);
        assert rest[0] == Tail(stack)[k];
      } else {
        assert Chunks(stack)[i + 1..] == Chunks(rest)[i..];
        assert Dropped(stack)[i + 1..] == Dropped(rest)[i..];
        DroppedBeforeOpen(rest, i - 1);
      }
    }
  }

  /** `Stack.__get_sections`: the `while` loop that cuts the text into chunks. */
  method GetSections(data: string) returns (sections: seq<string>)
    ensures sections == Chunks(data)
  {
    sections := [];
    var stack := data;
    var openIndex := 0;
    while openIndex != -1
      invariant openIndex != -1 ==> sections + Chunks(stack) == Chunks(data)
      invariant openIndex == -1 ==> sections == Chunks(data)
      decreases |stack| + (if openIndex == -1 then 0 else 1)
    {
      openIndex := Find(Tail(stack), '[');
      if openIndex != -1 {
        ChunksCut(stack, openIndex);
        AppendAssoc(sections, [stack[..openIndex]], Chunks(stack[openIndex + 1..]));
        sections := sections + [stack[..openIndex]];
        stack := stack[openIndex + 1..];
      } else {
        ChunksLast(stack);
        sections := sections + [stack];
      }
    }
  }

  // ---------------------------------------------------------------------------
  // Parsing one chunk (`Stack.__parse_lines_to_section`)
  // ---------------------------------------------------------------------------

  /**
   * `pair.split('=')` followed by `[0]` and `[1]`: the key is the text before
   * the first `=`, the value the text between the first and the second `=`
   * (or the end); a line without `=` raises `IndexError`.
   */
  function ParsePair(line: string): (r: Result<(string, string), Error>)
    ensures r.Err? <==> '=' !in line
    ensures r.Err? ==> r.error == IndexError
  {
    var parts := Split(line, '=');
    if |parts| < 2 then Err(IndexError) else Ok((parts[0], parts[1]))
  }

  /**
   * The pair of a line with an `=`: the key is the text before the first `=`,
   * the value the text after it up to the next `=` or the end.
   */
  lemma ParsePairSplit(line: string)
    requires '=' in line
    ensures ParsePair(line).Ok?
    ensures var k := Find(line, '='); var v := ParsePair(line).value.1;
      && ParsePair(line).value.0 == line[..k]
      && '=' !in v && v <= line[k + 1..]
      && (|v| == |line[k + 1..]| || line[k + 1..][|v|] == '=')
  {
    SplitUnfold(line, '=');
  }

  /** The `for` loop over the value lines, adding each pair to the dict in turn. */
  function ParsePairs(acc: Values, lines: seq<string>): (r: Result<Values, Error>)
    ensures r.Err? ==> r.error == IndexError
    decreases |lines|
  {
    if |lines| == 0 then Ok(acc)
    else
      match ParsePair(lines[0])
      case Err(e) => Err(e)
      case Ok(kv) => ParsePairs(Put(acc, kv.0, Some(kv.1)), lines[1..])
  }

  /**
   * What `__parse_lines_to_section` makes of one chunk: its first line is the
   * identifier (the chunk's text before the first newline); the other lines
   * are parsed as pairs.
   */
  function ParseChunk(chunk: string): (r: Result<Section, Error>)
    ensures r.Err? ==> r.error == IndexError
  {
    var lines := Split(chunk, '\n');
    match ParsePairs([], lines[1..])
    case Err(e) => Err(e)
    case Ok(vs) => Ok(Section(lines[0], vs))
  }

  /** The identifier of a parsed chunk is its text before the first newline (all of it when there is none). */
  lemma ParseChunkIdentifier(chunk: string)
    requires ParseChunk(chunk).Ok?
    ensures var id := ParseChunk(chunk).value.identifier;
      '\n' !in id && id <= chunk && (|id| == |chunk| || chunk[|id|] == '\n')
  {
  }

  /** A chunk whose value lines fail to parse fails with `IndexError`. */
  lemma ParseChunkFails(chunk: string)
    requires ParsePairs([], Split(chunk, '\n')[1..]).Err?
    ensures ParseChunk(chunk) == Err(IndexError)
  {
  }

  /** A chunk whose value lines parse to `vs` is the section of its first line and `vs`. */
  lemma ParseChunkOf(chunk: string, vs: Values)
    requires ParsePairs([], Split(chunk, '\n')[1..]) == Ok(vs)
    ensures ParseChunk(chunk) == Ok(Section(Split(chunk, '\n')[0], vs))
  {
  }

  /** `Stack.__parse_lines_to_section`. */
  method ParseLinesToSection(chunk: string) returns (r: Result<Section, Error>)
    ensures r == ParseChunk(chunk)
  {
    var lines := Split(chunk, '\n');
    var identifier := lines[0];
    var sectionValues: Values := [];
    for i := 1 to |lines|
      invariant ParsePairs(sectionValues, lines[i..]) == ParsePairs([], lines[1..])
    {
      var pairSplit := Split(lines[i], '=');
      if |pairSplit| < 2 {
        return Err(IndexError);
      }
      assert lines[i..][1..] == lines[i + 1..];
      sectionValues := Put(sectionValues, pairSplit[0], Some(pairSplit[1]));
    }
    return Ok(Section(identifier, sectionValues));
  }

  /** Parsing the value lines fails exactly when one of them has no `=`. */
  lemma {:induction false} ParsePairsFails(acc: Values, lines: seq<string>)
    ensures ParsePairs(acc, lines).Err? <==> exists i :: 0 <= i < |lines| && '=' !in lines[i]
    decreases |lines|
  {
    if |lines| > 0 {
      match ParsePair(lines[0])
      case Err(_) =>
      case Ok(kv) =>
        ParsePairsFails(Put(acc, kv.0, Some(kv.1)), lines[1..]);
        if exists i :: 0 <= i < |lines| && '=' !in lines[i] {
          var i :| 0 <= i < |lines| && '=' !in lines[i];
          assert lines[1..][i - 1] == lines[i];
        }
    }
  }

  /** The key named by a line (the text before its first `=`). */
  function KeyOf(line: string): string
    requires '=' in line
  {
    ParsePair(line).value.0
  }

  /** The value a line carries (the text between its first and second `=`). */
  function ValueOf(line: string): string
    requires '=' in line
  {
    ParsePair(line).value.1
  }

  /** Value lines that all hold an `=`, as a dict update needs. */
  predicate AllPairs(lines: seq<string>) {
    forall i :: 0 <= i < |lines| ==> '=' in lines[i]
  }

  /** A key named on no value line keeps the value it had before. */
  lemma {:induction false} ParsePairsUntouched(acc: Values, lines: seq<string>, key: string)
    requires AllPairs(lines)
    requires forall i :: 0 <= i < |lines| ==> KeyOf(lines[i]) != key
    ensures ParsePairs(acc, lines).Ok?
    ensures Get(ParsePairs(acc, lines).value, key) == Get(acc, key)
    decreases |lines|
  {
    if |lines| > 0 {
      var kv := ParsePair(lines[0]).value;
      var acc' := Put(acc, kv.0, Some(kv.1));
      PutOther(acc, kv.0, Some(kv.1), key);
      assert forall i :: 0 <= i < |lines| - 1 ==> lines[1..][i] == lines[i + 1];
      ParsePairsUntouched(acc', lines[1..], key);
    }
  }

  /** A key named on some value line takes the value of the LAST line that names it. */
  lemma {:induction false} ParsePairsLastWins(acc: Values, lines: seq<string>, key: string, i: int)
    requires AllPairs(lines)
    requires 0 <= i < |lines| && KeyOf(lines[i]) == key
    requires forall j :: i < j < |lines| ==> KeyOf(lines[j]) != key
    ensures ParsePairs(acc, lines).Ok?
    ensures Get(ParsePairs(acc, lines).value, key) == Some(ValueOf(lines[i]))
    decreases |lines|
  {
    var kv := ParsePair(lines[0]).value;
    var acc' := Put(acc, kv.0, Some(kv.1));
    var tail := lines[1..];
    assert forall j :: 0 <= j < |lines| - 1 ==> tail[j] == lines[j + 1];
    if i == 0 {
      PutGet(acc, kv.0, Some(kv.1));
      ParsePairsUntouched(acc', tail, key);
    } else {
      ParsePairsLastWins(acc', tail, key, i - 1);
    }
  }

  /** The keys the value lines name. */
  function LineKeys(lines: seq<string>): set<string>
    requires AllPairs(lines)
  {
    if |lines| == 0 then {} else {KeyOf(lines[0])} + LineKeys(lines[1..])
  }

  /** The parsed dict holds the keys it started with and the keys the lines name, and no others. */
  lemma {:induction false} ParsePairsKeys(acc: Values, lines: seq<string>)
    requires AllPairs(lines)
    ensures ParsePairs(acc, lines).Ok?
    ensures Keys(ParsePairs(acc, lines).value) == Keys(acc) + LineKeys(lines)
    decreases |lines|
  {
    if |lines| > 0 {
      var kv := ParsePair(lines[0]).value;
      var acc' := Put(acc, kv.0, Some(kv.1));
      PutKeys(acc, kv.0, Some(kv.1));
      assert forall i :: 0 <= i < |lines| - 1 ==> lines[1..][i] == lines[i + 1];
      ParsePairsKeys(acc', lines[1..]);
    }
  }

  // ---------------------------------------------------------------------------
  // Parsing a whole response (`Stack.__parse_sections`, `Stack.parse`)
  // ---------------------------------------------------------------------------

  /** `done` in front of the sections of a successful parse; an error is passed on. */
  function Prefixed(done: seq<Section>, r: Result<seq<Section>, Error>): Result<seq<Section>, Error> {
    match r
    case Ok(ss) => Ok(done + ss)
    case Err(e) => Err(e)
  }

  /** Every chunk parsed in order; the first chunk that fails makes the whole parse fail. */
  function ParseSections(chunks: seq<string>): (r: Result<seq<Section>, Error>)
    ensures r.Err? ==> r.error == IndexError
    ensures r.Ok? ==> |r.value| == |chunks|
  {
    if |chunks| == 0 then Ok([])
    else
      match ParseChunk(chunks[0])
      case Err(e) => Err(e)
      case Ok(s) => Prefixed([s], ParseSections(chunks[1..]))
  }

  /**
   * The parse fails exactly when some chunk fails to parse; when it succeeds,
   * the i-th section is what the i-th chunk parses to.
   */
  lemma {:induction false} ParseSectionsEach(chunks: seq<string>)
    ensures ParseSections(chunks).Err? <==> exists i :: 0 <= i < |chunks| && ParseChunk(chunks[i]).Err?
    ensures ParseSections(chunks).Ok? ==>
      forall i :: 0 <= i < |chunks| ==> ParseChunk(chunks[i]) == Ok(ParseSections(chunks).value[i])
  {
    if |chunks| > 0 {
      var tail := chunks[1..];
      ParseSectionsEach(tail);
      match ParseChunk(chunks[0])
      case Err(_) =>
      case Ok(s) =>
        match ParseSections(tail)
        case Err(_) =>
          var i :| 0 <= i < |tail| && ParseChunk(tail[i]).Err?;
          assert tail[i] == chunks[i + 1];
        case Ok(ss) =>
          EachOfCons(chunks, s, ss);
          ParseSectionsCons(chunks, s, ss);
    }
  }

  /** The chunks after the first parse one by one to `ss` and the first to `s`: so do all chunks to `[s] + ss`. */
  lemma EachOfCons(chunks: seq<string>, s: Section, ss: seq<Section>)
    requires |chunks| > 0 && ParseChunk(chunks[0]) == Ok(s) && |ss| == |chunks| - 1
    requires forall i :: 0 <= i < |chunks[1..]| ==> ParseChunk(chunks[1..][i]) == Ok(ss[i])
    ensures forall i :: 0 <= i < |chunks| ==> ParseChunk(chunks[i]) == Ok(([s] + ss)[i])
  {
    forall i | 0 <= i < |chunks| ensures ParseChunk(chunks[i]) == Ok(([s] + ss)[i]) {
      if i > 0 {
        assert chunks[1..][i - 1] == chunks[i];
      }
    }
  }

  /** One step of `ParseSections` when the first chunk parses. */
  lemma ParseSectionsCons(chunks: seq<string>, s: Section, ss: seq<Section>)
    requires |chunks| > 0 && ParseChunk(chunks[0]) == Ok(s) && ParseSections(chunks[1..]) == Ok(ss)
    ensures ParseSections(chunks) == Ok([s] + ss)
  {
  }

  /** What `Stack.parse` makes of a response: never an empty list of sections. */
  function ParseStack(data: string): (r: Result<seq<Section>, Error>)
    ensures r.Ok? ==> |r.value| == |Chunks(data)| >= 1
    ensures r.Err? ==> r.error == IndexError
  {
    ParseSections(Chunks(data))
  }

  /** `Stack.__parse_sections`: parses every chunk of the list in turn. */
  method ParseSectionList(chunks: seq<string>) returns (r: Result<seq<Section>, Error>)
    ensures r == ParseSections(chunks)
  {
    var parsed: seq<Section> := [];
    PrefixedNothing(chunks);
    for i := 0 to |chunks|
      invariant ParseSections(chunks) == Prefixed(parsed, ParseSections(chunks[i..]))
    {
      var s := ParseLinesToSection(chunks[i]);
      ParseSectionsAt(chunks, i);
      if s.Err? {
        return Err(s.error);
      }
      PrefixedAssoc(parsed, [s.value], ParseSections(chunks[i + 1..]));
      parsed := parsed + [s.value];
    }
    PrefixedAll(chunks, parsed);
    return Ok(parsed);
  }

  /** Nothing parsed yet: the whole parse is the parse of all chunks. */
  lemma PrefixedNothing(chunks: seq<string>)
    ensures ParseSections(chunks) == Prefixed([], ParseSections(chunks[0..]))
  {
    assert chunks[0..] == chunks;
    match ParseSections(chunks) {
      case Err(_) =>
      case Ok(ss) => assert [] + ss == ss;
    }
  }

  /** All chunks parsed: the rest of the parse adds nothing. */
  lemma PrefixedAll(chunks: seq<string>, parsed: seq<Section>)
    ensures Prefixed(parsed, ParseSections(chunks[|chunks|..])) == Ok(parsed)
  {
    assert chunks[|chunks|..] == [] && parsed + [] == parsed;
  }

  /** The parse of the chunks from `i` on, one chunk at a time. */
  lemma ParseSectionsAt(chunks: seq<string>, i: int)
    requires 0 <= i < |chunks|
    ensures ParseSections(chunks[i..]) ==
      match ParseChunk(chunks[i])
      case Err(e) => Err(e)
      case Ok(s) => Prefixed([s], ParseSections(chunks[i + 1..]))
  {
    assert chunks[i..][0] == chunks[i] && chunks[i..][1..] == chunks[i + 1..];
  }

  /** Putting sections in front in two steps or in one is the same. */
  lemma PrefixedAssoc(a: seq<Section>, b: seq<Section>, r: Result<seq<Section>, Error>)
    ensures Prefixed(a, Prefixed(b, r)) == Prefixed(a + b, r)
  {
    match r {
      case Err(_) =>
      case Ok(ss) => AppendAssoc(a, b, ss);
    }
  }

  /** Two sections have the same shape: equal identifiers and equal key sets, whatever the values. */
  predicate SameShape(a: Section, b: Section) {
    a.identifier == b.identifier && Keys(a.values) == Keys(b.values)
  }

  /** `Stack.__eq__`: same number of sections, pairwise of the same shape. */
  predicate SchemaEqual(a: seq<Section>, b: seq<Section>) {
    |a| == |b| && forall i :: 0 <= i < |a| ==> SameShape(a[i], b[i])
  }

  /** The record `Stack.to_dict` builds for one section. */
  datatype SectionDict = SectionDict(identifier: string, values: Values)

  /** The index of the first section named `identifier`, if any. */
  function FirstNamed(ss: seq<Section>, identifier: string): (r: Option<nat>)
    ensures r.None? <==> forall i :: 0 <= i < |ss| ==> ss[i].identifier != identifier
    ensures r.Some? ==> (r.value < |ss| && ss[r.value].identifier == identifier
      && forall j :: 0 <= j < r.value ==> ss[j].identifier != identifier)
  {
    if |ss| == 0 then None
    else if ss[0].identifier == identifier then Some(0)
    else
      match FirstNamed(ss[1..], identifier)
      case None => None
      case Some(k) => Some(k + 1)
  }

  /** What `get_section` answers for a list of sections. */
  function SectionLookup(ss: seq<Section>, identifier: string): Result<Option<Section>, Error> {
    if |ss| == 0 then Ok(None)
    else
      match FirstNamed(ss, identifier)
      case None => Err(SectionNotFoundError)
      case Some(i) => Ok(Some(ss[i]))
  }

  /** A parsed response. */
  class Stack {
    var sections: seq<Section>

    /**
     * The stack between `self.sections = None` and `self.parse(data)` in
     * `__init__`; nothing outside `New` ever sees it in this state.
     */
    constructor Unparsed()
      ensures sections == []
    {
      sections := [];
    }

    /** `Stack(data)`: a new stack holding the sections of `data`, or the error parsing raises. */
    static method New(data: string) returns (r: Result<Stack, Error>)
      ensures ParseStack(data).Err? ==> r == Err(ParseStack(data).error)
      ensures ParseStack(data).Ok? ==> r.Ok? && fresh(r.value) && r.value.sections == ParseStack(data).value
    {
      var stack := new Stack.Unparsed();
      var outcome := stack.Parse(data);
      if outcome.Fail? {
        return Err(outcome.error);
      }
      return Ok(stack);
    }

    /** `Stack.parse`: replaces the sections wholesale, or leaves them alone when parsing raises. */
    method Parse(data: string) returns (r: Outcome<Error>)
      modifies this
      ensures ParseStack(data).Ok? ==> r == Pass && sections == ParseStack(data).value
      ensures ParseStack(data).Err? ==> r == Fail(ParseStack(data).error) && sections == old(sections)
    {
      var chunks := GetSections(data);
      var parsed := ParseSectionList(chunks);
      if parsed.Err? {
        return Fail(parsed.error);
      }
      sections := parsed.value;
      return Pass;
    }

    /**
     * `Stack.get_section`: `None` when there are no sections, otherwise the
     * first section with that identifier, or `SectionNotFoundError`.
     */
    method GetSection(identifier: string) returns (r: Result<Option<Section>, Error>)
      ensures |sections| == 0 <==> r == Ok(None)
      ensures r.Ok? && r.value.Some? ==>
        exists i :: (0 <= i < |sections| && sections[i] == r.value.value && sections[i].identifier == identifier
          && forall j :: 0 <= j < i ==> sections[j].identifier != identifier)
      ensures r == Err(SectionNotFoundError) <==>
        |sections| > 0 && forall i :: 0 <= i < |sections| ==> sections[i].identifier != identifier
      ensures r.Err? ==> r.error == SectionNotFoundError
      ensures r == SectionLookup(sections, identifier)
    {
      if |sections| == 0 {
        return Ok(None);
      }
      for i := 0 to |sections|
        invariant forall j :: 0 <= j < i ==> sections[j].identifier != identifier
      {
        if sections[i].identifier == identifier {
          return Ok(Some(sections[i]));
        }
      }
      return Err(SectionNotFoundError);
    }

    /** `Stack.to_dict`: the identifier and values of every section, in order. */
    method ToDict() returns (d: seq<SectionDict>)
      ensures |d| == |sections|
      ensures forall i :: 0 <= i < |d| ==>
        d[i].identifier == sections[i].identifier && d[i].values == sections[i].values
    {
      d := [];
      for i := 0 to |sections|
        invariant |d| == i
        invariant forall j :: 0 <= j < i ==>
          d[j].identifier == sections[j].identifier && d[j].values == sections[j].values
      {
        d := d + [SectionDict(sections[i].identifier, sections[i].values)];
      }
    }

    /** `Stack.to_text`: the sections' texts concatenated in order. */
    method ToText() returns (text: string)
      ensures text == StackText(sections)
    {
      text := "";
      for i := 0 to |sections|
        invariant text == StackText(sections[..i])
      {
        var t := SectionToText(sections[i]);
        StackTextStep(sections, i);
        text := text + t;
      }
      assert sections[..|sections|] == sections;
    }

    /** `Stack.__eq__`: compares lengths first, then identifiers and key sets pair by pair. */
    method Equals(other: Stack) returns (eq: bool)
      ensures eq <==> SchemaEqual(sections, other.sections)
    {
      if |sections| != |other.sections| {
        return false;
      }
      for i := 0 to |sections|
        invariant forall j :: 0 <= j < i ==> SameShape(sections[j], other.sections[j])
      {
        var otherSection := other.sections[i];
        if Keys(sections[i].values) != Keys(otherSection.values)
          || sections[i].identifier != otherSection.identifier
        {
          return false;
        }
      }
      return true;
    }
  }

  /** Schema equality is reflexive, symmetric and transitive. */
  lemma SchemaEqualIsEquivalence(a: seq<Section>, b: seq<Section>, c: seq<Section>)
    ensures SchemaEqual(a, a)
    ensures SchemaEqual(a, b) ==> SchemaEqual(b, a)
    ensures SchemaEqual(a, b) && SchemaEqual(b, c) ==> SchemaEqual(a, c)
  {
  }

  /** Schema equality ignores values: replacing the values by any with the same keys keeps the stacks equal. */
  lemma SchemaEqualIgnoresValues(a: seq<Section>, vs: seq<Values>)
    requires |vs| == |a|
    requires forall i :: 0 <= i < |a| ==> Keys(vs[i]) == Keys(a[i].values)
    ensures SchemaEqual(a, seq(|a|, i requires 0 <= i < |a| => Section(a[i].identifier, vs[i])))
  {
  }

  // ---------------------------------------------------------------------------
  // Settings records
  // ---------------------------------------------------------------------------

  /**
   * `BaseSettingsElement.raw_identifier`: the identifier without its first
   * character, cut at the first `]`.
   */
  function RawIdentifier(identifier: string): (r: string)
    ensures ']' !in r
    ensures r <= Tail(identifier)
    ensures |r| == |Tail(identifier)| || Tail(identifier)[|r|] == ']'
  {
    Split(Tail(identifier), ']')[0]
  }

  /** `BaseSettingsElement.to_section`: a section with the element's identifier and no values. */
  function BaseToSection(identifier: string): (s: Section)
    ensures SectionText(s) == identifier + "\n"
  {
    Section(identifier, [])
  }

  /** `'1' if flag else '0'`. */
  function Flag(b: bool): string {
    if b then "1" else "0"
  }

  /** A static DHCP lease; `toggle_dhcp_lease` changes `isEnabled` in place. */
  class DhcpLease {
    const identifier: string
    const ipAddress: Option<string>
    const macAddress: Option<string>
    var isEnabled: bool

    constructor (identifier: string, ipAddress: Option<string>, macAddress: Option<string>, isEnabled: bool)
      ensures this.identifier == identifier && this.ipAddress == ipAddress
      ensures this.macAddress == macAddress && this.isEnabled == isEnabled
    {
      this.identifier := identifier;
      this.ipAddress := ipAddress;
      this.macAddress := macAddress;
      this.isEnabled := isEnabled;
    }

    /**
     * `DHCPLease.to_section`: `chaddr`, `yiaddr` and `enable` (as '1' or '0'),
     * under the lease's identifier.
     */
    function ToSection(): (s: Section)
      reads this
      ensures s.identifier == identifier && Keys(s.values) == {"chaddr", "yiaddr", "enable"}
      ensures Get(s.values, "chaddr") == macAddress && Get(s.values, "yiaddr") == ipAddress
      ensures Get(s.values, "enable") == Some(Flag(isEnabled))
      ensures Get(s.values, "enable") == Some("1") <==> isEnabled
    {
      Section(identifier, [
        Entry("chaddr", macAddress),
        Entry("yiaddr", ipAddress),
        Entry("enable", Some(Flag(isEnabled)))])
    }
  }

  /** `'' ` and `None` are both false in Python's `if not x`. */
  predicate Falsy(v: Option<string>) {
    v == None || v == Some("")
  }

  /** A port-forwarding rule, as `PortForwardingRule.__init__` leaves it. */
  datatype PortForwardingRule = PortForwardingRule(
    identifier: string,
    clientIpAddress: Option<string>,
    internalPort: Option<string>,
    externalPort: Option<string>,
    isEnabled: bool,
    protocol: Option<string>,
    internalPortEnd: Option<string>,
    externalPortEnd: Option<string>)

  /**
   * `PortForwardingRule.__init__`: an empty internal end defaults to the
   * internal port; an empty external end then overwrites the INTERNAL end with
   * the external port and leaves the external end as it was given.
   */
  function NewPortForwardingRule(
    identifier: string, clientIpAddress: Option<string>, internalPort: Option<string>,
    externalPort: Option<string>, isEnabled: bool, protocol: Option<string>,
    internalPortEnd: Option<string>, externalPortEnd: Option<string>): (r: PortForwardingRule)
    ensures r.identifier == identifier && r.clientIpAddress == clientIpAddress
    ensures r.internalPort == internalPort && r.externalPort == externalPort
    ensures r.isEnabled == isEnabled && r.protocol == protocol
    ensures r.externalPortEnd == externalPortEnd
    ensures Falsy(externalPortEnd) ==> r.internalPortEnd == externalPort
    ensures !Falsy(externalPortEnd) && Falsy(internalPortEnd) ==> r.internalPortEnd == internalPort
    ensures !Falsy(externalPortEnd) && !Falsy(internalPortEnd) ==> r.internalPortEnd == internalPortEnd
  {
    var end1 := if Falsy(internalPortEnd) then internalPort else internalPortEnd;
    var end2 := if Falsy(externalPortEnd) then externalPort else end1;
    PortForwardingRule(identifier, clientIpAddress, internalPort, externalPort,
      isEnabled, protocol, end2, externalPortEnd)
  }

  /** `PortForwardingRule.internal_port_range`. */
  function InternalPortRange(r: PortForwardingRule): string {
    Str(r.internalPort) + "-" + Str(r.internalPortEnd)
  }

  /** `PortForwardingRule.external_port_range`. */
  function ExternalPortRange(r: PortForwardingRule): string {
    Str(r.externalPort) + "-" + Str(r.externalPortEnd)
  }

  /**
   * The port ranges of a freshly built rule: with no external end, the
   * internal range runs from the internal port to the EXTERNAL port and the
   * external range ends in the given (empty) end; with only the internal end
   * missing, the internal range is a single port.
   */
  lemma PortRangesOfNewRule(
    identifier: string, clientIpAddress: Option<string>, internalPort: Option<string>,
    externalPort: Option<string>, isEnabled: bool, protocol: Option<string>,
    internalPortEnd: Option<string>, externalPortEnd: Option<string>)
    ensures var r := NewPortForwardingRule(identifier, clientIpAddress, internalPort, externalPort,
      isEnabled, protocol, internalPortEnd, externalPortEnd);
      && (Falsy(externalPortEnd) ==>
            InternalPortRange(r) == Str(internalPort) + "-" + Str(externalPort)
            && ExternalPortRange(r) == Str(externalPort) + "-" + Str(externalPortEnd))
      && (!Falsy(externalPortEnd) && Falsy(internalPortEnd) ==>
            InternalPortRange(r) == Str(internalPort) + "-" + Str(internalPort))
  {
  }

  /** The entries `PortForwardingRule.to_section` writes, in its order. */
  function RuleEntries(r: PortForwardingRule): seq<Entry> {
    [ Entry("externalPort", r.externalPort),
      Entry("internalPort", r.internalPort),
      Entry("X_TP_ExternalPortEnd", r.externalPortEnd),
      Entry("X_TP_InternalPortEnd", r.internalPortEnd),
      Entry("internalClient", r.clientIpAddress),
      Entry("portMappingProtocol", r.protocol),
      Entry("portMappingEnabled", Some(Flag(r.isEnabled)))]
  }

  /** The seven field names are different strings, so the entries form a dict. */
  lemma RuleEntriesDistinct(r: PortForwardingRule)
    ensures DistinctKeys(RuleEntries(r))
  {
    var vs := RuleEntries(r);
    assert vs[0].key[0] != vs[1].key[0];
    assert vs[2].key[5] != vs[3].key[5];
  }

  /**
   * `PortForwardingRule.to_section`: the seven protocol fields under the
   * rule's identifier, `portMappingEnabled` written as '1' exactly when the
   * rule is enabled.
   */
  function RuleToSection(r: PortForwardingRule): (s: Section)
    ensures s.identifier == r.identifier
    ensures Get(s.values, "portMappingEnabled") == Some(Flag(r.isEnabled))
    ensures Get(s.values, "portMappingEnabled") == Some("1") <==> r.isEnabled
  {
    RuleEntriesDistinct(r);
    var vs: Values := RuleEntries(r);
    assert vs[6].key == "portMappingEnabled";
    Section(r.identifier, vs)
  }

  /** The section of a rule holds exactly the seven protocol fields. */
  lemma RuleSectionKeys(r: PortForwardingRule)
    ensures Keys(RuleToSection(r).values) == {"externalPort", "internalPort", "X_TP_ExternalPortEnd",
      "X_TP_InternalPortEnd", "internalClient", "portMappingProtocol", "portMappingEnabled"}
  {
    var vs := RuleEntries(r);
    assert vs == RuleToSection(r).values;
    KeysOfSeven(vs);
  }

  /** The key set of a seven-entry dict, written out. */
  lemma KeysOfSeven(vs: seq<Entry>)
    requires |vs| == 7
    ensures Keys(vs) == {vs[0].key, vs[1].key, vs[2].key, vs[3].key, vs[4].key, vs[5].key, vs[6].key}
  {
    forall k | k in Keys(vs) ensures k in {vs[0].key, vs[1].key, vs[2].key, vs[3].key, vs[4].key, vs[5].key, vs[6].key} {
      var e :| e in vs && e.key == k;
      var i :| 0 <= i < 7 && vs[i] == e;
    }
    assert vs[0] in vs && vs[1] in vs && vs[2] in vs && vs[3] in vs;
    assert vs[4] in vs && vs[5] in vs && vs[6] in vs;
  }
}
