/**
 * The direct readers of the tutorial-input service. Raw text typed by an
 * administrator is classified as JSON, MIDI numbers, sargam, Western or
 * numbered notation and read into MIDI notes with their intervals and a
 * guessed key. A fallback reader and the extraction of a JSON object from a
 * language-model reply complete the service; the model call itself is
 * outside this module.
 */
module TutorialParser {
  import opened Wrappers
  import opened Text
  import Melody

  const SARGAM_TO_MIDI: map<string, int> := map[
    ".sa" := 48, ".re" := 50, ".ga" := 52, ".ma" := 53, ".pa" := 55, ".dha" := 57, ".ni" := 59,
    "sa" := 60, "re" := 62, "ga" := 64, "ma" := 65, "pa" := 67, "dha" := 69, "ni" := 71,
    "sa'" := 72, "re'" := 73, "ga'" := 76, "ma'" := 77, "pa'" := 79, "dha'" := 81, "ni'" := 83,
    "re_komal" := 61, "ga_komal" := 63, "dha_komal" := 68, "ni_komal" := 70,
    "ma_tivra" := 66
  ]

  const WESTERN_TO_MIDI: map<string, int> := map[
    "c" := 60, "c#" := 61, "db" := 61, "d" := 62, "d#" := 63, "eb" := 63,
    "e" := 64, "f" := 65, "f#" := 66, "gb" := 66, "g" := 67, "g#" := 68,
    "ab" := 68, "a" := 69, "a#" := 70, "bb" := 70, "b" := 71
  ]

  const NUMBERED_TO_MIDI: map<string, int> := map[
    "1" := 60, "2" := 62, "3" := 64, "4" := 65, "5" := 67, "6" := 69, "7" := 71,
    "1'" := 72, "2'" := 74, "3'" := 76, "4'" := 77, "5'" := 79, "6'" := 81, "7'" := 83,
    ".1" := 48, ".2" := 50, ".3" := 52, ".4" := 53, ".5" := 55, ".6" := 57, ".7" := 59
  ]

  /** The seven plain sargam syllables, as format detection looks for them. */
  const SARGAM_SYLLABLES: seq<string> := ["sa", "re", "ga", "ma", "pa", "dha", "ni"]

  const KEY_NAMES: seq<string> := ["C", "C#", "D", "D#", "E", "F", "F#", "G", "G#", "A", "A#", "B"]

  const DEFAULT_TEMPO := 120
  const DEFAULT_KEY := "C"

  datatype Format = Json | Midi | Sargam | Western | Numbered | Unknown

  /**
   * What `json.loads` made of the input: an object, of which only the
   * fields the reader looks up are kept (None when a field is absent or
   * null; the two are not distinguished), or another JSON value.
   */
  datatype JsonDoc =
    | JsonObject(notes: Option<seq<int>>, intervals: Option<seq<int>>, tempo: Option<int>,
                 key: Option<string>, sections: Option<seq<string>>)
    | JsonArray
    | JsonScalar

  /** The structured form every reader returns. */
  datatype Tutorial = Tutorial(notes: seq<int>, intervals: seq<int>, tempo: int, key: string, sections: seq<string>)

  /**
   * Why a direct parse gives no tutorial: the input decoded to JSON that is
   * not an object (`.get` on it raises), or it needs the language model.
   */
  datatype ParseError = NotAnObject | NeedsLanguageModel

  // ---------------------------------------------------------------------
  // Numbers in text
  // ---------------------------------------------------------------------

  /** Values of a sequence of digit strings. */
  function Values(ts: seq<string>): (ns: seq<int>)
    requires forall t :: t in ts ==> AllDigits(t)
    ensures |ns| == |ts| && forall i :: 0 <= i < |ts| ==> ns[i] == DecimalValue(ts[i])
  {
    seq(|ts|, i requires 0 <= i < |ts| => DecimalValue(ts[i]))
  }

  /** The integers `re.findall(r'\d+', s)` finds, read with `int`, in order. */
  function Numbers(s: string): (ns: seq<int>)
    ensures forall n :: n in ns ==> n >= 0
  {
    TokensShape(s, IsNotDigit);
    Values(Tokens(s, IsNotDigit))
  }

  predicate InMidiRange(n: int) { 36 <= n <= 96 }

  /** The list comprehension that keeps the numbers in [36, 96], in order. */
  function KeepInRange(ns: seq<int>): (r: seq<int>)
    ensures |r| <= |ns|
    ensures forall x :: x in r <==> x in ns && InMidiRange(x)
    ensures (forall x :: x in ns ==> InMidiRange(x)) ==> r == ns
    ensures r == [] <==> forall x :: x in ns ==> !InMidiRange(x)
  {
    if ns == [] then []
    else
      assert ns == ns[..|ns| - 1] + [ns[|ns| - 1]];
      KeepInRange(ns[..|ns| - 1]) + (if InMidiRange(ns[|ns| - 1]) then [ns[|ns| - 1]] else [])
  }

  /** Lower-casing changes no digit and makes no digit, so the numbers stay. */
  lemma {:induction false} DigitRunLower(s: string)
    ensures RunLength(Lower(s), IsNotDigit) == RunLength(s, IsNotDigit)
    decreases |s|
  {
    if s != [] {
      assert Lower(s)[1..] == Lower(s[1..]);
      DigitRunLower(s[1..]);
    }
  }

  lemma LowerSuffix(s: string, k: nat)
    requires k <= |s|
    ensures Lower(s)[k..] == Lower(s[k..])
  {
  }

  lemma LowerDigits(s: string, n: nat)
    requires n <= |s| && forall i :: 0 <= i < n ==> IsDigit(s[i])
    ensures Lower(s)[..n] == s[..n]
  {
  }

  lemma {:induction false} DigitTokensLower(s: string)
    ensures Tokens(Lower(s), IsNotDigit) == Tokens(s, IsNotDigit)
    decreases |s|
  {
    if s != [] {
      LowerSuffix(s, 1);
      if IsNotDigit(s[0]) {
        DigitTokensLower(s[1..]);
      } else {
        var n := RunLength(s, IsNotDigit);
        DigitRunLower(s);
        LowerDigits(s, n);
        LowerSuffix(s, n);
        DigitTokensLower(s[n..]);
      }
    }
  }

  /** Whitespace is never part of a number, so stripping it keeps the numbers. */
  lemma {:induction false} DigitTokensLStrip(s: string)
    ensures Tokens(LStrip(s), IsNotDigit) == Tokens(s, IsNotDigit)
    decreases |s|
  {
    if s != [] && IsSpace(s[0]) {
      DigitTokensLStrip(s[1..]);
    }
  }

  lemma {:induction false} DigitTokensRStrip(s: string)
    ensures Tokens(RStrip(s), IsNotDigit) == Tokens(s, IsNotDigit)
    decreases |s|
  {
    if s != [] && IsSpace(s[|s| - 1]) {
      var init := s[..|s| - 1];
      assert s == init + [s[|s| - 1]] + [];
      TokensAppend(init, s[|s| - 1], [], IsNotDigit);
      DigitTokensRStrip(init);
    }
  }

  /** Format detection reads the same numbers from the stripped, lower-cased text as the MIDI reader reads from the raw input. */
  lemma NumbersOfDetectionText(raw: string)
    ensures Numbers(Lower(Strip(raw))) == Numbers(raw)
  {
    DigitTokensLStrip(raw);
    DigitTokensRStrip(LStrip(raw));
    DigitTokensLower(Strip(raw));
  }

  // ---------------------------------------------------------------------
  // Format detection
  // ---------------------------------------------------------------------

  predicate IsMidiChar(c: char) { IsDigit(c) || IsSpace(c) || c == ',' || c == '[' || c == ']' }

  /** `re.match(r'^[\d\s,\[\]]+$', s)`. */
  predicate OnlyMidiChars(s: string) { s != [] && forall i :: 0 <= i < |s| ==> IsMidiChar(s[i]) }

  /** `w` occurs at `i` with a word boundary on both sides. */
  predicate WordAt(s: string, i: int, w: string)
  {
    0 <= i && i + |w| <= |s| && Boundary(s, i) && s[i..i + |w|] == w && Boundary(s, i + |w|)
  }

  /** `re.search(r'\b(sa|re|ga|ma|pa|dha|ni)\b', s)`. */
  predicate HasSargamWord(s: string)
  {
    exists i, w :: 0 <= i <= |s| && w in SARGAM_SYLLABLES && WordAt(s, i, w)
  }

  predicate IsLowerNoteLetter(c: char) { 'a' <= c <= 'g' }

  /** `re.search(r'\b[a-g][#b]?\d\b', s)` at position i, with the optional accidental tried first. */
  predicate WesternAt(s: string, i: int)
    requires 0 <= i < |s|
  {
    && Boundary(s, i)
    && IsLowerNoteLetter(s[i])
    && (|| (i + 2 < |s| && (s[i + 1] == '#' || s[i + 1] == 'b') && IsDigit(s[i + 2]) && Boundary(s, i + 3))
        || (i + 1 < |s| && IsDigit(s[i + 1]) && Boundary(s, i + 2)))
  }

  predicate HasWesternNote(s: string) { exists i :: 0 <= i < |s| && WesternAt(s, i) }

  /** `re.search(r'\b[1-7][\'.]?\b', s)` at position i. */
  predicate NumberedAt(s: string, i: int)
    requires 0 <= i < |s|
  {
    && Boundary(s, i)
    && '1' <= s[i] <= '7'
    && (|| (i + 2 <= |s| && (s[i + 1] == '\'' || s[i + 1] == '.') && Boundary(s, i + 2))
        || Boundary(s, i + 1))
  }

  predicate HasNumberedNote(s: string) { exists i :: 0 <= i < |s| && NumberedAt(s, i) }

  /** `re.search(r'\b[89]\b', s)` at position i. */
  predicate EightOrNineAt(s: string, i: int)
    requires 0 <= i < |s|
  {
    Boundary(s, i) && (s[i] == '8' || s[i] == '9') && Boundary(s, i + 1)
  }

  predicate HasEightOrNine(s: string) { exists i :: 0 <= i < |s| && EightOrNineAt(s, i) }

  predicate LooksLikeJson(text: string) { StartsWith(text, "{") || StartsWith(text, "[") }

  /** Whether the text passes the MIDI test: only MIDI characters, and every number in [36, 96]. */
  predicate LooksLikeMidi(text: string)
  {
    OnlyMidiChars(text) && forall n :: n in Numbers(text) ==> InMidiRange(n)
  }

  /**
   * The format the service detects, as written. `parsed` is what
   * `json.loads(raw)` returns, None when it raises. Any JSON value counts,
   * an array of numbers included.
   */
  function DetectFormat(raw: string, parsed: Option<JsonDoc>): (f: Format)
    ensures f == Json <==> LooksLikeJson(Lower(Strip(raw))) && parsed.Some?
  {
    var text := Lower(Strip(raw));
    if LooksLikeJson(text) && parsed.Some? then Json
    else if LooksLikeMidi(text) then Midi
    else if HasSargamWord(text) then Sargam
    else if HasWesternNote(text) then Western
    else if HasNumberedNote(text) && !HasEightOrNine(text) then Numbered
    else Unknown
  }

  /**
   * Format detection as evidently intended: only a JSON object, the one
   * kind of JSON the JSON reader can read, is routed to it; a bracketed
   * list of note numbers falls through to the MIDI test.
   */
  function DetectFormatFixed(raw: string, parsed: Option<JsonDoc>): (f: Format)
    ensures f == Json <==> LooksLikeJson(Lower(Strip(raw))) && parsed.Some? && parsed.value.JsonObject?
  {
    var text := Lower(Strip(raw));
    if LooksLikeJson(text) && parsed.Some? && parsed.value.JsonObject? then Json
    else if LooksLikeMidi(text) then Midi
    else if HasSargamWord(text) then Sargam
    else if HasWesternNote(text) then Western
    else if HasNumberedNote(text) && !HasEightOrNine(text) then Numbered
    else Unknown
  }

  /** Text made only of digits, whitespace, commas and brackets whose numbers all lie in [36, 96] is MIDI unless it decoded as JSON. */
  lemma DetectMidi(raw: string, parsed: Option<JsonDoc>)
    requires LooksLikeMidi(Lower(Strip(raw)))
    requires !(LooksLikeJson(Lower(Strip(raw))) && parsed.Some?)
    ensures DetectFormat(raw, parsed) == Midi
  {
  }

  // ---------------------------------------------------------------------
  // Key detection
  // ---------------------------------------------------------------------

  function PitchClasses(notes: seq<int>): (pcs: seq<int>)
    ensures |pcs| == |notes| && forall i :: 0 <= i < |notes| ==> pcs[i] == notes[i] % 12 && 0 <= pcs[i] < 12
  {
    seq(|notes|, i requires 0 <= i < |notes| => notes[i] % 12)
  }

  function Count(s: seq<int>, x: int): nat
  {
    if s == [] then 0 else Count(s[..|s| - 1], x) + (if s[|s| - 1] == x then 1 else 0)
  }

  /** The distinct elements of `s` in order of first appearance: the key order of a Python dict filled from `s`. */
  function Firsts(s: seq<int>): (r: seq<int>)
    ensures forall x :: x in r <==> x in s
  {
    if s == [] then []
    else
      assert s == s[..|s| - 1] + [s[|s| - 1]];
      var f := Firsts(s[..|s| - 1]);
      if s[|s| - 1] in f then f else f + [s[|s| - 1]]
  }

  /** Index of the first occurrence of `x` in `s`. */
  function FirstIndex(s: seq<int>, x: int): (i: nat)
    requires x in s
    ensures i < |s| && s[i] == x && x !in s[..i]
  {
    assert s == s[..|s| - 1] + [s[|s| - 1]];
    if x in s[..|s| - 1] then
      var j := FirstIndex(s[..|s| - 1], x);
      assert s[..j] == s[..|s| - 1][..j];
      j
    else |s| - 1
  }

  /** The order of first appearance is increasing in first-occurrence index. */
  lemma {:induction false} FirstsOrdered(s: seq<int>)
    ensures forall a, b :: 0 <= a < b < |Firsts(s)| ==> FirstIndex(s, Firsts(s)[a]) < FirstIndex(s, Firsts(s)[b])
  {
    if s != [] {
      var init := s[..|s| - 1];
      var x := s[|s| - 1];
      var f := Firsts(init);
      FirstsOrdered(init);
      assert s == init + [x];
      forall y | y in init
        ensures FirstIndex(s, y) == FirstIndex(init, y)
      {
      }
      if x !in f {
        assert Firsts(s) == f + [x];
        assert FirstIndex(s, x) == |s| - 1;
      }
    }
  }

  /** The number of occurrences of each element of `s`: the dict `counts` of the source. */
  function CountMap(s: seq<int>): (m: map<int, nat>)
    ensures forall x :: x in m <==> x in s
    ensures forall x :: x in m ==> m[x] == Count(s, x)
  {
    map x | x in s :: Count(s, x)
  }

  /**
   * Position of `max(keys, key=counts.get)`: the first key with the largest
   * count, since `max` replaces its candidate only on a strictly larger one.
   */
  function FirstMaxIndex(keys: seq<int>, counts: map<int, nat>): (j: nat)
    requires keys != [] && forall i :: 0 <= i < |keys| ==> keys[i] in counts
    ensures j < |keys|
    ensures forall i :: 0 <= i < |keys| ==> counts[keys[i]] <= counts[keys[j]]
    ensures forall i :: 0 <= i < j ==> counts[keys[i]] < counts[keys[j]]
  {
    if |keys| == 1 then 0
    else
      var init := keys[..|keys| - 1];
      assert forall i :: 0 <= i < |init| ==> init[i] == keys[i];
      var b := FirstMaxIndex(init, counts);
      if counts[keys[|keys| - 1]] > counts[keys[b]] then |keys| - 1 else b
  }

  /** Every key of the dict order has a count. */
  lemma FirstsCounted(s: seq<int>)
    ensures forall i :: 0 <= i < |Firsts(s)| ==> Firsts(s)[i] in CountMap(s)
  {
    var f := Firsts(s);
    forall i | 0 <= i < |f|
      ensures f[i] in CountMap(s)
    {
      assert f[i] in f;
    }
  }

  /** `max(counts, key=counts.get)` over the dict `CountMap(s)` whose key order is `Firsts(s)`. */
  function MostFrequent(s: seq<int>): (x: int)
    requires s != []
    ensures x in s
  {
    var keys := Firsts(s);
    FirstsCounted(s);
    var j := FirstMaxIndex(keys, CountMap(s));
    assert keys[j] in keys;
    keys[j]
  }

  /** The guessed tonic: the most frequent pitch class, ties going to the class that appears first. */
  function Tonic(notes: seq<int>): (t: int)
    requires notes != []
    ensures 0 <= t < 12
  {
    MostFrequent(PitchClasses(notes))
  }

  /** The key `_detect_key` reports: "C" without notes, else the name of the tonic. */
  function KeyOf(notes: seq<int>): string
  {
    if notes == [] then DEFAULT_KEY else KEY_NAMES[Tonic(notes)]
  }

  /** No element of `s` is more frequent than the one the dict's `max` picks. */
  lemma MostFrequentIsMax(s: seq<int>, c: int)
    requires s != []
    ensures Count(s, c) <= Count(s, MostFrequent(s))
  {
    if c !in s {
      CountAbsent(s, c);
    } else {
      var f := Firsts(s);
      FirstsCounted(s);
      var k := FirstIndex(f, c);
      var j := FirstMaxIndex(f, CountMap(s));
      assert CountMap(s)[f[k]] <= CountMap(s)[f[j]];
    }
  }

  /** The tonic is a pitch class of the notes and no pitch class is more frequent. */
  lemma TonicIsMostFrequent(notes: seq<int>)
    requires notes != []
    ensures Tonic(notes) in PitchClasses(notes)
    ensures forall c :: Count(PitchClasses(notes), c) <= Count(PitchClasses(notes), Tonic(notes))
  {
    forall c
      ensures Count(PitchClasses(notes), c) <= Count(PitchClasses(notes), Tonic(notes))
    {
      MostFrequentIsMax(PitchClasses(notes), c);
    }
  }

  /** Of the elements as frequent as the one the dict's `max` picks, that one appears first. */
  lemma FirstMaxIsFirstOfTies(s: seq<int>, c: int)
    requires c in s
    requires Count(s, c) == Count(s, MostFrequent(s))
    ensures FirstIndex(s, MostFrequent(s)) <= FirstIndex(s, c)
  {
    var f := Firsts(s);
    var m := CountMap(s);
    FirstsCounted(s);
    var j := FirstMaxIndex(f, m);
    var k := FirstIndex(f, c);
    assert MostFrequent(s) == f[j];
    assert c == f[k];
    assert j <= k by {
      assert m[f[k]] == Count(s, c);
      assert m[f[j]] == Count(s, f[j]);
      FirstMaxBeforeTies(f, m, k);
    }
    if j == k {
      assert MostFrequent(s) == c;
    } else {
      FirstsOrderedAt(s, j, k);
    }
  }

  /** A key as frequent as the chosen one does not come before it. */
  lemma FirstMaxBeforeTies(keys: seq<int>, counts: map<int, nat>, k: nat)
    requires keys != [] && forall i :: 0 <= i < |keys| ==> keys[i] in counts
    requires k < |keys| && counts[keys[k]] == counts[keys[FirstMaxIndex(keys, counts)]]
    ensures FirstMaxIndex(keys, counts) <= k
  {
  }

  lemma FirstsOrderedAt(s: seq<int>, a: nat, b: nat)
    requires a < b < |Firsts(s)|
    ensures FirstIndex(s, Firsts(s)[a]) < FirstIndex(s, Firsts(s)[b])
  {
    FirstsOrdered(s);
  }

  /** Of the pitch classes as frequent as the tonic, the tonic appears first. */
  lemma TonicIsFirstOfTies(notes: seq<int>)
    requires notes != []
    ensures forall c :: c in PitchClasses(notes) ==>
      (Count(PitchClasses(notes), c) == Count(PitchClasses(notes), Tonic(notes)) ==>
         FirstIndex(PitchClasses(notes), Tonic(notes)) <= FirstIndex(PitchClasses(notes), c))
  {
    var pcs := PitchClasses(notes);
    forall c | c in pcs && Count(pcs, c) == Count(pcs, Tonic(notes))
      ensures FirstIndex(pcs, Tonic(notes)) <= FirstIndex(pcs, c)
    {
      FirstMaxIsFirstOfTies(pcs, c);
    }
  }

  lemma {:induction false} CountAbsent(s: seq<int>, x: int)
    requires x !in s
    ensures Count(s, x) == 0
  {
    if s != [] {
      assert s == s[..|s| - 1] + [s[|s| - 1]];
      CountAbsent(s[..|s| - 1], x);
    }
  }

  /** One more element: the dict gains it as its last key if it is new. */
  lemma FirstsPrefixStep(pcs: seq<int>, i: nat)
    requires i < |pcs|
    ensures Firsts(pcs[..i + 1]) == if pcs[i] in pcs[..i] then Firsts(pcs[..i]) else Firsts(pcs[..i]) + [pcs[i]]
  {
    assert pcs[..i + 1][..i] == pcs[..i];
  }

  /** The dict invariant of `_detect_key`: `counts` holds the count of every element of `s`, and nothing else. */
  ghost predicate CountsOf(counts: map<int, nat>, s: seq<int>)
  {
    (forall x :: x in counts <==> x in s) && forall x :: x in counts ==> counts[x] == Count(s, x)
  }

  /** Counting one more element keeps the dict invariant. */
  lemma CountsStep(pcs: seq<int>, i: nat, counts: map<int, nat>)
    requires i < |pcs| && CountsOf(counts, pcs[..i])
    ensures CountsOf(counts[pcs[i] := (if pcs[i] in counts then counts[pcs[i]] else 0) + 1], pcs[..i + 1])
  {
    var pc := pcs[i];
    var next := counts[pc := (if pc in counts then counts[pc] else 0) + 1];
    assert pcs[..i + 1] == pcs[..i] + [pc];
    assert pcs[..i + 1][..i] == pcs[..i];
    if pc !in pcs[..i] {
      CountAbsent(pcs[..i], pc);
    }
  }

  /** `_detect_key`: pitch classes are counted in a dict whose key order is first appearance, then the first largest count wins. */
  method DetectKey(notes: seq<int>) returns (key: string)
    ensures key == KeyOf(notes)
  {
    if notes == [] {
      return DEFAULT_KEY;
    }
    var pcs := PitchClasses(notes);
    var counts: map<int, nat> := map[];
    var order: seq<int> := [];
    for i := 0 to |pcs|
      invariant order == Firsts(pcs[..i])
      invariant CountsOf(counts, pcs[..i])
    {
      var pc := pcs[i];
      FirstsPrefixStep(pcs, i);
      CountsStep(pcs, i, counts);
      if pc !in counts {
        order := order + [pc];
      }
      counts := counts[pc := (if pc in counts then counts[pc] else 0) + 1];
    }
    assert pcs[..|pcs|] == pcs;
    assert counts == CountMap(pcs) by {
      assert forall x :: x in counts <==> x in CountMap(pcs);
    }
    FirstsCounted(pcs);
    var tonic := order[FirstMaxIndex(order, counts)];
    key := KEY_NAMES[tonic];
  }

  // ---------------------------------------------------------------------
  // MIDI numbers
  // ---------------------------------------------------------------------

  function MidiNotes(raw: string): seq<int> { KeepInRange(Numbers(raw)) }

  function MidiTutorial(raw: string): Tutorial
  {
    var notes := MidiNotes(raw);
    Tutorial(notes, Melody.Intervals(notes), DEFAULT_TEMPO, KeyOf(notes), [])
  }

  /** `_parse_midi_input`: the numbers of the text that lie in [36, 96], in order, and their intervals. */
  method ParseMidiInput(raw: string) returns (t: Tutorial)
    ensures t == MidiTutorial(raw)
    ensures forall n :: n in t.notes <==> n in Numbers(raw) && InMidiRange(n)
    ensures |t.intervals| == if |t.notes| < 2 then 0 else |t.notes| - 1
  {
    var notes := MidiNotes(raw);
    var intervals := Melody.CalculateIntervals(notes);
    var key := DetectKey(notes);
    t := Tutorial(notes, intervals, DEFAULT_TEMPO, key, []);
  }

  /** When the text was detected as MIDI, the MIDI reader keeps every number in it. */
  lemma DetectedMidiKeepsAll(raw: string, parsed: Option<JsonDoc>)
    requires DetectFormat(raw, parsed) == Midi
    ensures MidiNotes(raw) == Numbers(raw)
  {
    DetectedMidiText(raw, parsed);
    NumbersOfDetectionText(raw);
    forall n | n in Numbers(raw)
      ensures InMidiRange(n)
    {
      assert n in Numbers(Lower(Strip(raw)));
    }
  }

  /** Text detected as MIDI passes the MIDI test once stripped and lowered. */
  lemma DetectedMidiText(raw: string, parsed: Option<JsonDoc>)
    requires DetectFormat(raw, parsed) == Midi
    ensures forall n :: n in Numbers(Lower(Strip(raw))) ==> InMidiRange(n)
  {
    assert LooksLikeMidi(Lower(Strip(raw)));
  }

  // ---------------------------------------------------------------------
  // Sargam
  // ---------------------------------------------------------------------

  /** The separators of `re.split(r'[\s,\-]+', ...)`; splitting and dropping the empty pieces gives `Tokens`. */
  predicate IsListSep(c: char) { IsSpace(c) || c == ',' || c == '-' }

  /** An octave marker split off a token: a leading '.' lowers by 12, else a trailing "'" raises by 12. */
  function OctaveMarker(token: string): (r: (int, string))
    ensures r.0 == -12 ==> token == "." + r.1
    ensures r.0 == 12 ==> token == r.1 + "'"
    ensures r.0 == 0 ==> token == r.1
  {
    if StartsWith(token, ".") then (-12, token[1..])
    else if EndsWith(token, "'") then (12, token[..|token| - 1])
    else (0, token)
  }

  /** The token with its komal/tivra suffixes removed. */
  function BaseNote(token: string): string
  {
    ReplaceAll(ReplaceAll(token, "_komal", ""), "_tivra", "")
  }

  /**
   * One sargam token as the reader treats it. The octave marker is removed
   * first and the bare syllable looked up before the shift is applied, so a
   * plain syllable is read at the middle octave whatever its marker.
   */
  function SargamNoteAsWritten(token: string): Option<int>
  {
    var (octave, core) := OctaveMarker(token);
    if core in SARGAM_TO_MIDI then Some(SARGAM_TO_MIDI[core])
    else if BaseNote(core) in SARGAM_TO_MIDI then Some(SARGAM_TO_MIDI[BaseNote(core)] + octave)
    else None
  }

  /** One sargam token as evidently intended: the octave marker shifts every syllable it is attached to. */
  function SargamNote(token: string): Option<int>
  {
    var (octave, core) := OctaveMarker(token);
    if core in SARGAM_TO_MIDI then Some(SARGAM_TO_MIDI[core] + octave)
    else if BaseNote(core) in SARGAM_TO_MIDI then Some(SARGAM_TO_MIDI[BaseNote(core)] + octave)
    else None
  }

  /** A token without a marker is read as it stands; a marker is split off whole. */
  lemma OctaveMarkers(w: string)
    requires w != [] && w[0] != '.' && w[|w| - 1] != '\''
    ensures OctaveMarker(w) == (0, w)
    ensures OctaveMarker("." + w) == (-12, w)
    ensures OctaveMarker(w + "'") == (12, w)
  {
    assert ("." + w)[..1] == "." && ("." + w)[1..] == w;
    assert (w + "'")[..1] == w[..1];
    assert (w + "'")[|w + "'"| - 1..] == "'" && (w + "'")[..|w|] == w;
    assert w[..1] != ".";
    assert w[|w| - 1..] != "'";
  }

  lemma SyllableShape(w: string)
    requires w in SARGAM_SYLLABLES
    ensures w != [] && w[0] != '.' && w[|w| - 1] != '\'' && w in SARGAM_TO_MIDI
  {
  }

  /** As written, a plain syllable reads the same with a lower-octave marker, without one, and with an upper-octave marker. */
  lemma SargamMarkersIgnored(w: string)
    requires w in SARGAM_SYLLABLES
    ensures SargamNoteAsWritten("." + w) == SargamNoteAsWritten(w) == SargamNoteAsWritten(w + "'") == Some(SARGAM_TO_MIDI[w])
  {
    SyllableShape(w);
    OctaveMarkers(w);
  }

  /** As written, ".sa", "sa" and "sa'" all read as middle Sa, 60. */
  lemma SargamMarkersIgnoredForSa()
    ensures SargamNoteAsWritten(".sa") == SargamNoteAsWritten("sa") == SargamNoteAsWritten("sa'") == Some(60)
  {
    SargamMarkersIgnored("sa");
    assert "." + "sa" == ".sa" && "sa" + "'" == "sa'";
  }

  /** As written, a marker on a komal form that is itself a table key is ignored too. */
  lemma SargamMarkerIgnoredOnKomal()
    ensures SargamNoteAsWritten(".re_komal") == SargamNoteAsWritten("re_komal") == Some(61)
    ensures SargamNote(".re_komal") == Some(49)
  {
    OctaveMarkers("re_komal");
    assert "." + "re_komal" == ".re_komal";
  }

  /** Corrected, a leading '.' reads a syllable an octave lower and a trailing "'" an octave higher. */
  lemma SargamMarkersShift(w: string)
    requires w in SARGAM_SYLLABLES
    ensures SargamNote(w) == Some(SARGAM_TO_MIDI[w])
    ensures SargamNote("." + w) == Some(SARGAM_TO_MIDI[w] - 12)
    ensures SargamNote(w + "'") == Some(SARGAM_TO_MIDI[w] + 12)
  {
    SyllableShape(w);
    OctaveMarkers(w);
  }

  /**
   * The table's entry for "re'" is 73, one semitone short of the octave
   * above "re" (62) that every other marked entry keeps; the corrected
   * reading shifts the bare syllable and gives 74.
   */
  lemma SargamUpperReDeparts()
    ensures SargamNote("re'") == Some(74) && SARGAM_TO_MIDI["re'"] == 73
  {
    SargamMarkersShift("re");
    assert "re" + "'" == "re'";
  }

  /** Corrected, ".sa" is 48, "sa" 60 and "sa'" 72. */
  lemma SargamMarkersShiftForSa()
    ensures SargamNote(".sa") == Some(48) && SargamNote("sa") == Some(60) && SargamNote("sa'") == Some(72)
  {
    SargamMarkersShift("sa");
    assert "." + "sa" == ".sa" && "sa" + "'" == "sa'";
  }

  /** The body of the reader's loop for one token: marker, komal/tivra suffix, lookup. */
  method ReadSargamToken(token: string) returns (note: Option<int>)
    ensures note == SargamNote(token)
  {
    var token := token;
    var currentOctave := 0;
    if StartsWith(token, ".") {
      currentOctave := -12;
      token := token[1..];
    } else if EndsWith(token, "'") {
      currentOctave := 12;
      token := token[..|token| - 1];
    }
    var baseNote := BaseNote(token);
    if token in SARGAM_TO_MIDI {
      note := Some(SARGAM_TO_MIDI[token] + currentOctave);
    } else if baseNote in SARGAM_TO_MIDI {
      note := Some(SARGAM_TO_MIDI[baseNote] + currentOctave);
    } else {
      note := None;
    }
  }

  function SargamNotes(tokens: seq<string>): seq<int>
  {
    if tokens == [] then []
    else
      var last := SargamNote(tokens[|tokens| - 1]);
      SargamNotes(tokens[..|tokens| - 1]) + (if last.Some? then [last.value] else [])
  }

  lemma SargamNotesStep(tokens: seq<string>, i: nat)
    requires i < |tokens|
    ensures SargamNotes(tokens[..i + 1]) == SargamNotes(tokens[..i]) + (if SargamNote(tokens[i]).Some? then [SargamNote(tokens[i]).value] else [])
  {
    assert tokens[..i + 1][..i] == tokens[..i];
  }

  function SargamTokens(raw: string): seq<string> { Tokens(Strip(Lower(raw)), IsListSep) }

  function SargamTutorial(raw: string): Tutorial
  {
    var notes := SargamNotes(SargamTokens(raw));
    Tutorial(notes, Melody.Intervals(notes), DEFAULT_TEMPO, KeyOf(notes), [])
  }

  /**
   * `_parse_sargam_input`: each token of the lower-cased, stripped text
   * that names a syllable gives one note, in order; other tokens are
   * skipped. Uses the corrected octave handling.
   */
  method ParseSargamInput(raw: string) returns (t: Tutorial)
    ensures t == SargamTutorial(raw)
  {
    var tokens := SargamTokens(raw);
    var notes: seq<int> := [];
    for i := 0 to |tokens|
      invariant notes == SargamNotes(tokens[..i])
    {
      SargamNotesStep(tokens, i);
      var note := ReadSargamToken(tokens[i]);
      if note.Some? {
        notes := notes + [note.value];
      }
    }
    assert tokens[..|tokens|] == tokens;
    var intervals := Melody.CalculateIntervals(notes);
    var key := DetectKey(notes);
    t := Tutorial(notes, intervals, DEFAULT_TEMPO, key, []);
  }

  // ---------------------------------------------------------------------
  // Western
  // ---------------------------------------------------------------------

  predicate IsNoteLetter(c: char) { 'A' <= c <= 'G' || 'a' <= c <= 'g' }

  function DigitValue(c: char): nat
    requires IsDigit(c)
  {
    c as int - '0' as int
  }

  /**
   * `re.findall(r'([A-Ga-g][#b]?)(\d)', s)`: left to right, without
   * overlap, a note letter, an optional '#' or 'b' (tried first) and one
   * octave digit.
   */
  function WesternMatches(s: string): (ms: seq<(string, nat)>)
    ensures forall m :: m in ms ==> 1 <= |m.0| <= 2 && IsNoteLetter(m.0[0]) && m.1 <= 9
    decreases |s|
  {
    if s == [] then []
    else if IsNoteLetter(s[0]) && |s| >= 3 && (s[1] == '#' || s[1] == 'b') && IsDigit(s[2]) then
      [(s[..2], DigitValue(s[2]))] + WesternMatches(s[3..])
    else if IsNoteLetter(s[0]) && |s| >= 2 && IsDigit(s[1]) then
      [(s[..1], DigitValue(s[1]))] + WesternMatches(s[2..])
    else WesternMatches(s[1..])
  }

  /** The note of one match: the name's pitch at octave 4 (60 when unknown) moved by whole octaves. */
  function WesternNote(name: string, octave: nat): int
  {
    var name := Lower(name);
    (if name in WESTERN_TO_MIDI then WESTERN_TO_MIDI[name] else 60) + (octave - 4) * 12
  }

  function WesternNotes(ms: seq<(string, nat)>): (notes: seq<int>)
    ensures |notes| == |ms| && forall i :: 0 <= i < |ms| ==> notes[i] == WesternNote(ms[i].0, ms[i].1)
  {
    seq(|ms|, i requires 0 <= i < |ms| => WesternNote(ms[i].0, ms[i].1))
  }

  function WesternTutorial(raw: string): Tutorial
  {
    var notes := WesternNotes(WesternMatches(raw));
    Tutorial(notes, Melody.Intervals(notes), DEFAULT_TEMPO, KeyOf(notes), [])
  }

  /** "C4" is middle C, 60, and "A#3" is 58; a text holding both reads as those two notes. */
  lemma WesternExamples()
    ensures WesternNote("C", 4) == 60 && WesternNote("A#", 3) == 58
    ensures WesternMatches("C4 A#3") == [("C", 4), ("A#", 3)]
  {
    assert Lower("C") == "c";
    assert Lower("A#") == "a#";
    var s := "C4 A#3";
    var t := "A#3";
    assert t[..2] == "A#" && t[3..] == [] && DigitValue('3') == 3;
    assert WesternMatches(t) == [("A#", 3)] + WesternMatches([]);
    assert s[2..] == " A#3" && s[2..][1..] == t;
    assert s[..1] == "C" && DigitValue('4') == 4;
    assert WesternMatches(s) == [("C", 4)] + WesternMatches(s[2..]);
  }

  /** `_parse_western_input`: one note per match, in order. */
  method ParseWesternInput(raw: string) returns (t: Tutorial)
    ensures t == WesternTutorial(raw)
    ensures |t.notes| == |WesternMatches(raw)|
  {
    var matches := WesternMatches(raw);
    var notes: seq<int> := [];
    for i := 0 to |matches|
      invariant notes == WesternNotes(matches[..i])
    {
      var (noteName, octave) := matches[i];
      var baseMidi := if Lower(noteName) in WESTERN_TO_MIDI then WESTERN_TO_MIDI[Lower(noteName)] else 60;
      notes := notes + [baseMidi + (octave - 4) * 12];
    }
    assert matches[..|matches|] == matches;
    var intervals := Melody.CalculateIntervals(notes);
    var key := DetectKey(notes);
    t := Tutorial(notes, intervals, DEFAULT_TEMPO, key, []);
  }

  // ---------------------------------------------------------------------
  // Numbered
  // ---------------------------------------------------------------------

  function NumberedNotes(tokens: seq<string>): (notes: seq<int>)
    ensures forall n :: n in notes ==> 48 <= n <= 83
  {
    if tokens == [] then []
    else
      var last := tokens[|tokens| - 1];
      NumberedNotes(tokens[..|tokens| - 1]) + (if last in NUMBERED_TO_MIDI then [NUMBERED_TO_MIDI[last]] else [])
  }

  function NumberedTutorial(raw: string): Tutorial
  {
    var notes := NumberedNotes(Tokens(raw, IsListSep));
    Tutorial(notes, Melody.Intervals(notes), DEFAULT_TEMPO, DEFAULT_KEY, [])
  }

  /**
   * `_parse_numbered_input`: a note for each token of the table, in order,
   * always in the key of C. The source's second branch, for a single digit
   * 1 to 7, only admits tokens the table already holds.
   */
  method ParseNumberedInput(raw: string) returns (t: Tutorial)
    ensures t == NumberedTutorial(raw)
    ensures t.key == "C" && forall n :: n in t.notes ==> 48 <= n <= 83
  {
    var tokens := Tokens(raw, IsListSep);
    var notes: seq<int> := [];
    for i := 0 to |tokens|
      invariant notes == NumberedNotes(tokens[..i])
    {
      assert tokens[..i + 1][..i] == tokens[..i];
      var token := tokens[i];
      if token in NUMBERED_TO_MIDI {
        notes := notes + [NUMBERED_TO_MIDI[token]];
      }
    }
    assert tokens[..|tokens|] == tokens;
    var intervals := Melody.CalculateIntervals(notes);
    t := Tutorial(notes, intervals, DEFAULT_TEMPO, DEFAULT_KEY, []);
  }

  // ---------------------------------------------------------------------
  // Best-effort fallback
  // ---------------------------------------------------------------------

  /** The maximal runs of word characters; `\b...\b` around a pattern of word characters matches a whole one. */
  function Words(s: string): seq<string> { Tokens(s, IsNotWordChar) }

  /** `re.findall(r'\b(\d+)\b', s)`: the words made only of digits, read as integers. */
  function BoundedNumbers(s: string): (ns: seq<int>)
  {
    var ws := Words(s);
    TokensShape(s, IsNotWordChar);
    DigitWordValues(ws)
  }

  function DigitWordValues(ws: seq<string>): seq<int>
  {
    if ws == [] then []
    else
      var w := ws[|ws| - 1];
      DigitWordValues(ws[..|ws| - 1]) + (if AllDigits(w) then [DecimalValue(w)] else [])
  }

  /** Every note letter, in either case, names an entry of the Western table. */
  lemma LetterInTable(c: char)
    requires IsNoteLetter(c)
    ensures [ToLower(c)] in WESTERN_TO_MIDI && 60 <= WESTERN_TO_MIDI[[ToLower(c)]] <= 71
  {
    var l := ToLower(c);
    if l == 'a' { assert [l] == "a"; }
    else if l == 'b' { assert [l] == "b"; }
    else if l == 'c' { assert [l] == "c"; }
    else if l == 'd' { assert [l] == "d"; }
    else if l == 'e' { assert [l] == "e"; }
    else if l == 'f' { assert [l] == "f"; }
    else { assert [l] == "g"; }
  }

  /** The Western-table note of a one-letter word. */
  function LetterNote(w: string): (n: int)
    requires |w| == 1 && IsNoteLetter(w[0])
    ensures 60 <= n <= 71
  {
    LetterInTable(w[0]);
    assert Lower(w) == [ToLower(w[0])];
    WESTERN_TO_MIDI[Lower(w)]
  }

  /** `re.findall(r'\b([A-Ga-g])\b', s)` mapped through the Western table: one-letter words naming a note. */
  function LetterNotes(ws: seq<string>): (notes: seq<int>)
    ensures forall n :: n in notes ==> 60 <= n <= 71
  {
    if ws == [] then []
    else
      var w := ws[|ws| - 1];
      LetterNotes(ws[..|ws| - 1]) + (if |w| == 1 && IsNoteLetter(w[0]) then [LetterNote(w)] else [])
  }

  function BestEffortNotes(raw: string): seq<int>
  {
    var numbers := KeepInRange(BoundedNumbers(raw));
    if numbers != [] then numbers else LetterNotes(Words(raw))
  }

  function BestEffortTutorial(raw: string): Tutorial
  {
    var notes := BestEffortNotes(raw);
    Tutorial(notes, Melody.Intervals(notes), DEFAULT_TEMPO, KeyOf(notes), [])
  }

  /** Note letters are read only when the text holds no whole number in [36, 96]; every note read is in [36, 96]. */
  lemma BestEffortFallback(raw: string)
    ensures (exists n :: n in BoundedNumbers(raw) && InMidiRange(n)) ==> BestEffortNotes(raw) == KeepInRange(BoundedNumbers(raw))
    ensures (forall n :: n in BoundedNumbers(raw) ==> !InMidiRange(n)) ==> BestEffortNotes(raw) == LetterNotes(Words(raw))
    ensures forall n :: n in BestEffortNotes(raw) ==> InMidiRange(n)
  {
    var ns := BoundedNumbers(raw);
    if exists n :: n in ns && InMidiRange(n) {
      var n :| n in ns && InMidiRange(n);
      assert n in KeepInRange(ns);
    }
  }

  /** One more word adds its note exactly when it is a single note letter. */
  lemma LetterNotesStep(ws: seq<string>, i: nat)
    requires i < |ws|
    ensures |ws[i]| == 1 && IsNoteLetter(ws[i][0]) ==> Lower(ws[i]) in WESTERN_TO_MIDI
    ensures LetterNotes(ws[..i + 1]) == LetterNotes(ws[..i])
      + (if |ws[i]| == 1 && IsNoteLetter(ws[i][0]) then [WESTERN_TO_MIDI[Lower(ws[i])]] else [])
  {
    assert ws[..i + 1][..i] == ws[..i];
    var w := ws[i];
    if |w| == 1 && IsNoteLetter(w[0]) {
      LetterInTable(w[0]);
      assert Lower(w) == [ToLower(w[0])];
    }
  }

  /** `_best_effort_parse`, the reader used when the language model is unavailable. */
  method BestEffortParse(raw: string) returns (t: Tutorial)
    ensures t == BestEffortTutorial(raw)
  {
    var notes := KeepInRange(BoundedNumbers(raw));
    if notes == [] {
      var letters := Words(raw);
      for i := 0 to |letters|
        invariant notes == LetterNotes(letters[..i])
      {
        LetterNotesStep(letters, i);
        var letter := letters[i];
        if |letter| == 1 && IsNoteLetter(letter[0]) {
          notes := notes + [WESTERN_TO_MIDI[Lower(letter)]];
        }
      }
      assert letters[..|letters|] == letters;
    }
    var intervals := Melody.CalculateIntervals(notes);
    var key := DEFAULT_KEY;
    if notes != [] {
      key := DetectKey(notes);
    }
    t := Tutorial(notes, intervals, DEFAULT_TEMPO, key, []);
  }

  // ---------------------------------------------------------------------
  // JSON
  // ---------------------------------------------------------------------

  /**
   * `_parse_json_input` on the decoded document: the fields with their
   * defaults, and intervals derived from the notes when notes are given but
   * intervals are missing or empty. Any JSON value but an object has no
   * `.get`, so the call raises.
   */
  function JsonTutorial(doc: JsonDoc): (r: Result<Tutorial, ParseError>)
    ensures r.Ok? <==> doc.JsonObject?
  {
    match doc
    case JsonObject(notes, intervals, tempo, key, sections) =>
      var ns := notes.GetOr([]);
      var given := intervals.GetOr([]);
      Ok(Tutorial(ns, if ns != [] && given == [] then Melody.Intervals(ns) else given,
                  tempo.GetOr(DEFAULT_TEMPO), key.GetOr(DEFAULT_KEY), sections.GetOr([])))
    case _ => Err(NotAnObject)
  }

  /** Intervals supplied in the document are kept as they are; missing ones are the steps between the notes. */
  lemma JsonIntervals(doc: JsonDoc)
    requires doc.JsonObject?
    ensures var t := JsonTutorial(doc).value;
      && t.notes == doc.notes.GetOr([])
      && (doc.intervals.GetOr([]) != [] ==> t.intervals == doc.intervals.value)
      && (doc.intervals.GetOr([]) == [] && t.notes != [] ==>
            |t.intervals| == |t.notes| - 1 && forall i :: 0 <= i < |t.intervals| ==> t.intervals[i] == t.notes[i + 1] - t.notes[i])
  {
    Melody.IntervalsShape(doc.notes.GetOr([]));
  }

  method ParseJsonInput(doc: JsonDoc) returns (r: Result<Tutorial, ParseError>)
    ensures r == JsonTutorial(doc)
  {
    if !doc.JsonObject? {
      return Err(NotAnObject);
    }
    var notes := doc.notes.GetOr([]);
    var intervals := doc.intervals.GetOr([]);
    if notes != [] && intervals == [] {
      intervals := Melody.CalculateIntervals(notes);
    }
    r := Ok(Tutorial(notes, intervals, doc.tempo.GetOr(DEFAULT_TEMPO), doc.key.GetOr(DEFAULT_KEY), doc.sections.GetOr([])));
  }

  /** A model reply with surrounding whitespace and an enclosing Markdown code fence removed. */
  function Unfenced(reply: string): string
  {
    var text := Strip(reply);
    if StartsWith(text, "```") then
      var lines := SplitOn(text, '\n');
      var body := if lines[|lines| - 1] == "```" then (if |lines| >= 2 then lines[1..|lines| - 1] else []) else lines[1..];
      JoinWith(body, '\n')
    else text
  }

  /** `t[i..j]` runs from the first '{' of `t` to its last '}'. */
  predicate OutermostBraces(t: string, i: int, j: int)
  {
    && 0 <= i < j <= |t| && t[i] == '{' && t[j - 1] == '}'
    && (forall k :: 0 <= k < i ==> t[k] != '{')
    && (forall k :: j <= k < |t| ==> t[k] != '}')
  }

  /** The span `json.loads` is given: from the first '{' to the last '}', or an error when there is no such span. */
  function BraceSpan(text: string): (r: Result<string, string>)
    ensures r.Ok? ==> |r.value| >= 2 && r.value[0] == '{' && r.value[|r.value| - 1] == '}'
  {
    var start := Find(text, '{');
    var end := RFind(text, '}') + 1;
    if start >= 0 && end > start then Ok(text[start..end])
    else Err("Could not extract JSON from AI response")
  }

  /** The extracted text is exactly the outermost brace span. */
  lemma BraceSpanOutermost(t: string)
    ensures BraceSpan(t).Ok? ==> exists i, j :: OutermostBraces(t, i, j) && BraceSpan(t).value == t[i..j]
  {
    if BraceSpan(t).Ok? {
      assert OutermostBraces(t, Find(t, '{'), RFind(t, '}') + 1);
    }
  }

  /** Extraction fails exactly when no '{' comes before a '}'. */
  lemma BraceSpanFails(t: string)
    ensures BraceSpan(t).Err? <==> forall i, j :: 0 <= i < j < |t| ==> !(t[i] == '{' && t[j] == '}')
  {
    var start := Find(t, '{');
    var last := RFind(t, '}');
    if BraceSpan(t).Ok? {
      assert t[start] == '{' && t[last] == '}' && start < last;
    } else {
      forall i, j | 0 <= i < j < |t| && t[i] == '{'
        ensures t[j] != '}'
      {
        assert start != -1 && start <= i;
      }
    }
  }

  /** `_extract_json`: the brace span of the reply once whitespace and a code fence are removed. */
  function ExtractJson(reply: string): (r: Result<string, string>)
    ensures r.Ok? ==> exists i, j :: OutermostBraces(Unfenced(reply), i, j) && r.value == Unfenced(reply)[i..j]
  {
    var text := Unfenced(reply);
    BraceSpanOutermost(text);
    BraceSpan(text)
  }

  // ---------------------------------------------------------------------
  // Dispatch
  // ---------------------------------------------------------------------

  /**
   * `parse_tutorial_input` up to the language-model branch. Only the
   * routing is as written (`DetectFormat`); each format is then read by
   * the corrected reader (`SargamTutorial` among them), so this member
   * isolates the routing discrepancy.
   */
  function ParseDirectAsWritten(raw: string, parsed: Option<JsonDoc>): Result<Tutorial, ParseError>
  {
    match DetectFormat(raw, parsed)
    case Json => JsonTutorial(parsed.value)
    case Midi => Ok(MidiTutorial(raw))
    case Sargam => Ok(SargamTutorial(raw))
    case Western => Ok(WesternTutorial(raw))
    case Numbered => Ok(NumberedTutorial(raw))
    case Unknown => Err(NeedsLanguageModel)
  }

  /** `parse_tutorial_input` up to the language-model branch, routed by the corrected detection. */
  function ParseDirect(raw: string, parsed: Option<JsonDoc>): Result<Tutorial, ParseError>
  {
    match DetectFormatFixed(raw, parsed)
    case Json => JsonTutorial(parsed.value)
    case Midi => Ok(MidiTutorial(raw))
    case Sargam => Ok(SargamTutorial(raw))
    case Western => Ok(WesternTutorial(raw))
    case Numbered => Ok(NumberedTutorial(raw))
    case Unknown => Err(NeedsLanguageModel)
  }

  /**
   * As written, a bracketed list such as "[60, 62, 64]" decodes as a JSON
   * array, is routed to the JSON reader and fails there.
   */
  lemma ListOfNotesFails(raw: string)
    requires StartsWith(Lower(Strip(raw)), "[")
    ensures ParseDirectAsWritten(raw, Some(JsonArray)) == Err(NotAnObject)
  {
    assert LooksLikeJson(Lower(Strip(raw)));
    assert DetectFormat(raw, Some(JsonArray)) == Json;
  }

  lemma ListOfNotesFailsExample()
    ensures ParseDirectAsWritten("[60, 62, 64]", Some(JsonArray)) == Err(NotAnObject)
  {
    var s := "[60, 62, 64]";
    assert !IsSpace(s[0]) && !IsSpace(s[|s| - 1]);
    assert LStrip(s) == s;
    assert RStrip(s) == s;
    var l := Lower(s);
    assert l[0] == ToLower('[') == '[';
    assert l[..1] == [l[0]];
    ListOfNotesFails(s);
  }

  /** Corrected, the direct readers never fail on a JSON value that is not an object. */
  lemma ParseDirectNeverNotAnObject(raw: string, parsed: Option<JsonDoc>)
    ensures ParseDirect(raw, parsed) != Err(NotAnObject)
  {
    if DetectFormatFixed(raw, parsed) == Json {
      assert JsonTutorial(parsed.value).Ok?;
    }
  }

  /** Corrected, a bracketed list of note numbers in [36, 96] is read as MIDI and keeps every number. */
  lemma ListOfNotesReadAsMidi(raw: string)
    requires LooksLikeMidi(Lower(Strip(raw)))
    ensures ParseDirect(raw, Some(JsonArray)) == Ok(MidiTutorial(raw))
    ensures MidiTutorial(raw).notes == Numbers(raw)
  {
    assert DetectFormatFixed(raw, Some(JsonArray)) == Midi;
    NumbersOfDetectionText(raw);
    assert forall n :: n in Numbers(raw) ==> InMidiRange(n);
    assert MidiNotes(raw) == Numbers(raw);
  }

  /** `parse_tutorial_input` for the inputs the direct readers handle. */
  method ParseTutorialInput(raw: string, parsed: Option<JsonDoc>) returns (r: Result<Tutorial, ParseError>)
    ensures r == ParseDirect(raw, parsed)
  {
    var format := DetectFormatFixed(raw, parsed);
    match format {
      case Json =>
        r := ParseJsonInput(parsed.value);
      case Midi =>
        var t := ParseMidiInput(raw);
        r := Ok(t);
      case Sargam =>
        var t := ParseSargamInput(raw);
        r := Ok(t);
      case Western =>
        var t := ParseWesternInput(raw);
        r := Ok(t);
      case Numbered =>
        var t := ParseNumberedInput(raw);
        r := Ok(t);
      case Unknown =>
        r := Err(NeedsLanguageModel);
    }
  }
}
