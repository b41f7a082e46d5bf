/** The letters of a text, the key line that its items make, and what should be read from it. */
module TextScript {
  import opened Morse
  import opened Keying
  import opened MorseText
  import opened DetimeTracking
  import opened DetimeDecode

  /** A letter or a prosign as one code, and how many spaces follow it. */
  datatype Letter = Letter(code: string, spaces: nat)

  /** Spaces before the first letter, and the letters. */
  datatype Script = Script(lead: nat, letters: seq<Letter>)

  /** The codes of a group run together. */
  function GroupCode(dict: Dict, group: string): string
    requires forall k :: 0 <= k < |group| ==> group[k] in dict
  {
    if group == "" then "" else GroupCode(dict, group[..|group| - 1]) + dict[group[|group| - 1]]
  }

  predicate Known(dict: Dict, group: string) {
    group != "" && forall k :: 0 <= k < |group| ==> group[k] in dict
  }

  /** Every code is a sequence of dots and dashes, and not empty. */
  predicate WellCoded(dict: Dict) {
    forall c :: c in dict ==> dict[c] != "" && ValidCode(dict[c])
  }

  /** Prosigns are made of dictionary characters; single characters may be anything. */
  predicate Sendable(dict: Dict, groups: seq<string>) {
    forall k :: 0 <= k < |groups| ==> Known(dict, groups[k]) || |groups[k]| == 1
  }

  function ReadGroup(dict: Dict, s: Script, group: string): Script {
    if Known(dict, group) then Script(s.lead, s.letters + [Letter(GroupCode(dict, group), 0)])
    else if group == " " then AddSpace(s)
    else s
  }

  function AddSpace(s: Script): Script {
    if s.letters == [] then Script(s.lead + 1, []) else
      var n := |s.letters| - 1;
      Script(s.lead, s.letters[..n] + [s.letters[n].(spaces := s.letters[n].spaces + 1)])
  }

  /** The letters of a text: one to a known character or prosign; other characters but spaces are passed over. */
  function Read(dict: Dict, groups: seq<string>): Script {
    if groups == [] then Script(0, [])
    else ReadGroup(dict, Read(dict, groups[..|groups| - 1]), groups[|groups| - 1])
  }

  /** The text that should be read back: one space after a letter, two where one or more spaces follow. */
  function Expected(letters: seq<Letter>): string {
    if letters == [] then "" else
      var l := letters[|letters| - 1];
      Expected(letters[..|letters| - 1]) + (l.code + if l.spaces == 0 then " " else "  ")
  }

  // ---- prosigns are single letters ----

  lemma {:induction false} CodeItemsJoin(a: string, b: string, n: nat, continues: bool)
    requires b != "" && n <= |b|
    ensures CodeItems(a + b, |a| + n, continues) == CodeItems(a, |a|, true) + CodeItems(b, n, continues)
  {
    if n == 0 {
      CodeItemsPrefix(a, b, |a|, continues);
      assert CodeItems(a, |a|, true) + [] == CodeItems(a, |a|, true);
    } else {
      CodeItemsJoin(a, b, n - 1, continues);
      assert (a + b)[|a| + n - 1] == b[n - 1];
    }
  }

  lemma {:induction false} CodeItemsPrefix(a: string, b: string, n: nat, continues: bool)
    requires b != "" && n <= |a|
    ensures CodeItems(a + b, n, continues) == CodeItems(a, n, true)
  {
    if n > 0 {
      CodeItemsPrefix(a, b, n - 1, continues);
      assert (a + b)[n - 1] == a[n - 1];
    }
  }

  lemma {:induction false} GroupRunsOn(dict: Dict, group: string, n: nat)
    requires WellCoded(dict) && Known(dict, group) && n <= |group|
    ensures var code := GroupCode(dict, group[..n]);
      && GroupItems(dict, group, n) == CodeItems(code, |code|, n != |group|)
      && (n > 0 ==> code != "") && ValidCode(code)
  {
    if n > 0 {
      GroupRunsOn(dict, group, n - 1);
      var before, last := GroupCode(dict, group[..n - 1]), dict[group[n - 1]];
      assert group[..n][..n - 1] == group[..n - 1];
      assert GroupCode(dict, group[..n]) == before + last;
      CodeItemsJoin(before, last, |last|, n != |group|);
    }
  }

  /** A prosign is queued exactly as one letter with the joined code. */
  lemma ProsignIsOneLetter(dict: Dict, group: string)
    requires WellCoded(dict) && Known(dict, group)
    ensures var code := GroupCode(dict, group);
      && code != "" && ValidCode(code)
      && GroupItems(dict, group, |group|) == CodeItems(code, |code|, false)
  {
    GroupRunsOn(dict, group, |group|);
    assert group[..|group|] == group;
  }

  // ---- marks and gaps ----

  function Stretch(t: Timing): nat {
    Duration(t, Pause)
  }

  function MarkOf(t: Timing, e: Element): nat {
    if e.Dit? then t.dit else t.dah
  }

  /** The first n elements of a code, the last of the whole code with gap `final`. */
  function CodeSegs(t: Timing, code: string, n: nat, final: nat): seq<Segment>
    requires n <= |code|
  {
    if n == 0 then [] else
      var e := ElementOf(code[n - 1]);
      CodeSegs(t, code, n - 1, final) + [Segment(e, MarkOf(t, e), if n == |code| then final else t.ies)]
  }

  /** The extra silence of n spaces. */
  function Pausing(t: Timing, n: nat): nat {
    n * Stretch(t)
  }

  function LetterGapOf(t: Timing, l: Letter): nat {
    t.ils + Pausing(t, l.spaces)
  }

  function LetterSegs(t: Timing, l: Letter): seq<Segment> {
    CodeSegs(t, l.code, |l.code|, LetterGapOf(t, l))
  }

  function AllSegs(t: Timing, letters: seq<Letter>): seq<Segment> {
    if letters == [] then [] else AllSegs(t, letters[..|letters| - 1]) + LetterSegs(t, letters[|letters| - 1])
  }

  function ScriptTape(t: Timing, s: Script): Tape {
    Tape(Pausing(t, s.lead), AllSegs(t, s.letters))
  }

  /** What an item does to the key. */
  function ItemEdge(i: Item): Edge {
    match i
    case Down(_) => KeyDown
    case Up(_, _) => KeyUp
    case Pause => Quiet
  }

  /** The items one after the other, each lasting its duration. */
  function Line(t: Timing, items: seq<Item>): seq<Edge> {
    if items == [] then [] else
      Line(t, items[..|items| - 1]) + Hold(ItemEdge(items[|items| - 1]), Duration(t, items[|items| - 1]))
  }

  lemma {:induction false} LineConcat(t: Timing, a: seq<Item>, b: seq<Item>)
    ensures Line(t, a + b) == Line(t, a) + Line(t, b)
  {
    if b == [] {
      assert a + b == a;
    } else {
      assert (a + b)[..|a + b| - 1] == a + b[..|b| - 1];
      LineConcat(t, a, b[..|b| - 1]);
      var last := b[|b| - 1];
      LongerLine(Line(t, a), Line(t, b[..|b| - 1]), Hold(ItemEdge(last), Duration(t, last)));
    }
  }

  lemma LineOne(t: Timing, a: Item)
    ensures Line(t, [a]) == Hold(ItemEdge(a), Duration(t, a))
  {
    assert [a][..0] == [];
    assert [] + Hold(ItemEdge(a), Duration(t, a)) == Hold(ItemEdge(a), Duration(t, a));
  }

  lemma LinePair(t: Timing, a: Item, b: Item)
    ensures Line(t, [a, b]) == Hold(ItemEdge(a), Duration(t, a)) + Hold(ItemEdge(b), Duration(t, b))
  {
    LineOne(t, a);
    assert [a, b][..1] == [a];
  }

  /** One more mark and gap, as items and as a segment. */
  lemma ElementLine(t: Timing, items: seq<Item>, segs: seq<Segment>, e: Element, ends: bool)
    requires Line(t, items) == Wave(segs)
    ensures Line(t, items + [Down(e), Up(e, ends)]) ==
      Wave(segs + [Segment(e, MarkOf(t, e), if ends then t.ils else t.ies)])
  {
    LineConcat(t, items, [Down(e), Up(e, ends)]);
    LinePair(t, Down(e), Up(e, ends));
    WaveAppend(segs, Segment(e, MarkOf(t, e), if ends then t.ils else t.ies));
  }

  lemma {:induction false} CodeLine(t: Timing, code: string, n: nat, items: seq<Item>, segs: seq<Segment>)
    requires n <= |code| && items == CodeItems(code, n, false) && segs == CodeSegs(t, code, n, t.ils)
    ensures Line(t, items) == Wave(segs)
  {
    if n > 0 {
      var items', segs', e := CodeItems(code, n - 1, false), CodeSegs(t, code, n - 1, t.ils), ElementOf(code[n - 1]);
      CodeLine(t, code, n - 1, items', segs');
      assert items == items' + [Down(e), Up(e, n == |code|)];
      assert segs == segs' + [Segment(e, MarkOf(t, e), if n == |code| then t.ils else t.ies)];
      ElementLine(t, items', segs', e, n == |code|);
    }
  }

  lemma {:induction false} WaveConcat(a: seq<Segment>, b: seq<Segment>)
    ensures Wave(a + b) == Wave(a) + Wave(b)
  {
    if b == [] {
      assert a + b == a;
    } else {
      assert (a + b)[..|a + b| - 1] == a + b[..|b| - 1];
      WaveConcat(a, b[..|b| - 1]);
    }
  }

  lemma HoldStill(n: nat)
    ensures Hold(Quiet, n) == Still(n)
  {
  }

  lemma HoldLonger(e: Edge, n: nat, m: nat)
    requires n > 0
    ensures Hold(e, n) + Still(m) == Hold(e, n + m)
  {
  }

  /** A longer final gap is more silence at the end of the letter. */
  lemma LongerGap(t: Timing, code: string, gap: nat, more: nat)
    requires code != "" && gap > 0
    ensures Wave(CodeSegs(t, code, |code|, gap + more)) == Wave(CodeSegs(t, code, |code|, gap)) + Still(more)
  {
    var n := |code|;
    var e := ElementOf(code[n - 1]);
    SameBefore(t, code, n - 1, gap, gap + more);
    LongerSegment(CodeSegs(t, code, n - 1, gap), Segment(e, MarkOf(t, e), gap), more);
  }

  lemma LongerSegment(before: seq<Segment>, s: Segment, more: nat)
    requires s.gap > 0
    ensures Wave(before + [s.(gap := s.gap + more)]) == Wave(before + [s]) + Still(more)
  {
    WaveAppend(before, s);
    WaveAppend(before, s.(gap := s.gap + more));
    HoldLonger(KeyUp, s.gap, more);
    LongerEnd(Wave(before), Hold(KeyDown, s.mark), Hold(KeyUp, s.gap), Still(more));
    LongerLine(Hold(KeyDown, s.mark), Hold(KeyUp, s.gap), Still(more));
  }

  lemma {:induction false} SameBefore(t: Timing, code: string, n: nat, a: nat, b: nat)
    requires n < |code|
    ensures CodeSegs(t, code, n, a) == CodeSegs(t, code, n, b)
  {
    if n > 0 {
      SameBefore(t, code, n - 1, a, b);
    }
  }

  lemma AppendLetter(t: Timing, letters: seq<Letter>, l: Letter)
    ensures AllSegs(t, letters + [l]) == AllSegs(t, letters) + LetterSegs(t, l)
    ensures Wave(AllSegs(t, letters + [l])) == Wave(AllSegs(t, letters)) + Wave(LetterSegs(t, l))
  {
    assert (letters + [l])[..|letters|] == letters;
    WaveConcat(AllSegs(t, letters), LetterSegs(t, l));
  }

  predicate Coded(letters: seq<Letter>) {
    forall k :: 0 <= k < |letters| ==> letters[k].code != "" && ValidCode(letters[k].code)
  }

  lemma {:induction false} GroupLine(dict: Dict, t: Timing, s: Script, group: string)
    requires WellCoded(dict) && (Known(dict, group) || |group| == 1) && Coded(s.letters) && 0 < t.ils
    ensures Coded(ReadGroup(dict, s, group).letters)
    ensures TapeEdges(ScriptTape(t, ReadGroup(dict, s, group))) ==
      TapeEdges(ScriptTape(t, s)) + Line(t, GroupItems(dict, group, |group|))
  {
    if Known(dict, group) {
      ProsignIsOneLetter(dict, group);
      LetterLine(t, s, GroupCode(dict, group), GroupItems(dict, group, |group|));
    } else {
      OtherGroupLine(dict, t, s, group);
    }
  }

  lemma OtherGroupLine(dict: Dict, t: Timing, s: Script, group: string)
    requires !Known(dict, group) && |group| == 1 && Coded(s.letters) && 0 < t.ils
    ensures Coded(ReadGroup(dict, s, group).letters)
    ensures TapeEdges(ScriptTape(t, ReadGroup(dict, s, group))) ==
      TapeEdges(ScriptTape(t, s)) + Line(t, GroupItems(dict, group, 1))
  {
    SingleItems(dict, group);
    if group == " " {
      SpaceLine(t, s);
    } else {
      assert TapeEdges(ScriptTape(t, s)) + [] == TapeEdges(ScriptTape(t, s));
    }
  }

  /** One more letter on the tape. */
  lemma LetterLine(t: Timing, s: Script, code: string, items: seq<Item>)
    requires items == CodeItems(code, |code|, false)
    ensures TapeEdges(ScriptTape(t, Script(s.lead, s.letters + [Letter(code, 0)]))) ==
      TapeEdges(ScriptTape(t, s)) + Line(t, items)
  {
    CodeLine(t, code, |code|, items, CodeSegs(t, code, |code|, t.ils));
    AppendLetter(t, s.letters, Letter(code, 0));
    LongerLine(Still(Pausing(t, s.lead)), Wave(AllSegs(t, s.letters)), Wave(LetterSegs(t, Letter(code, 0))));
  }

  lemma LongerLine(a: seq<Edge>, b: seq<Edge>, c: seq<Edge>)
    ensures a + (b + c) == (a + b) + c
  {
  }

  lemma SingleItems(dict: Dict, group: string)
    requires |group| == 1 && !Known(dict, group)
    ensures GroupItems(dict, group, 1) == if group == " " then [Pause] else []
  {
    assert group[0] !in dict;
    assert group == [group[0]];
    assert GroupItems(dict, group, 0) == [];
  }

  lemma SpaceLine(t: Timing, s: Script)
    requires Coded(s.letters) && 0 < t.ils
    ensures Coded(AddSpace(s).letters)
    ensures TapeEdges(ScriptTape(t, AddSpace(s))) == TapeEdges(ScriptTape(t, s)) + Line(t, [Pause])
  {
    LineOne(t, Pause);
    if s.letters == [] {
      LeadingSpace(t, s.lead);
      assert AllSegs(t, []) == [] && Wave([]) == [];
    } else {
      SpaceAfterLetter(t, s);
    }
  }

  lemma PausingGrows(t: Timing, n: nat)
    ensures Pausing(t, n + 1) == Pausing(t, n) + Stretch(t)
  {
    assert (n + 1) * Stretch(t) == n * Stretch(t) + Stretch(t);
  }

  lemma LeadingSpace(t: Timing, n: nat)
    ensures Still(Pausing(t, n + 1)) + [] == (Still(Pausing(t, n)) + []) + Hold(Quiet, Stretch(t))
  {
    PausingGrows(t, n);
    assert Still(Pausing(t, n) + Stretch(t)) == Still(Pausing(t, n)) + Still(Stretch(t));
    HoldStill(Stretch(t));
  }

  lemma LetterWithSpace(t: Timing, l: Letter)
    requires l.code != "" && 0 < t.ils
    ensures Wave(LetterSegs(t, l.(spaces := l.spaces + 1))) == Wave(LetterSegs(t, l)) + Still(Stretch(t))
  {
    PausingGrows(t, l.spaces);
    LongerGap(t, l.code, LetterGapOf(t, l), Stretch(t));
  }

  lemma {:induction false} SpaceAfterLetter(t: Timing, s: Script)
    requires s.letters != [] && Coded(s.letters) && 0 < t.ils
    ensures Coded(AddSpace(s).letters)
    ensures TapeEdges(ScriptTape(t, AddSpace(s))) == TapeEdges(ScriptTape(t, s)) + Hold(Quiet, Stretch(t))
  {
    var p, n := Stretch(t), |s.letters| - 1;
    var l, before := s.letters[n], s.letters[..n];
    assert s.letters == before + [l];
    LastLetter(t, s, before, l);
    LastLetter(t, AddSpace(s), before, l.(spaces := l.spaces + 1));
    LetterWithSpace(t, l);
    HoldStill(p);
    LongerEnd(Still(Pausing(t, s.lead)), Wave(AllSegs(t, before)), Wave(LetterSegs(t, l)), Still(p));
  }

  lemma LastLetter(t: Timing, s: Script, before: seq<Letter>, l: Letter)
    requires s.letters == before + [l]
    ensures TapeEdges(ScriptTape(t, s)) ==
      Still(Pausing(t, s.lead)) + (Wave(AllSegs(t, before)) + Wave(LetterSegs(t, l)))
  {
    AppendLetter(t, before, l);
  }

  lemma LongerEnd(a: seq<Edge>, b: seq<Edge>, c: seq<Edge>, d: seq<Edge>)
    ensures a + (b + (c + d)) == (a + (b + c)) + d
    ensures a + ((b + c) + d) == (a + (b + c)) + d
  {
  }

  /** The line of a text is the line of its letters. */
  lemma {:induction false} TextLine(dict: Dict, t: Timing, groups: seq<string>)
    requires WellCoded(dict) && Sendable(dict, groups) && 0 < t.ils
    ensures Coded(Read(dict, groups).letters)
    ensures Line(t, AllItems(dict, groups)) == TapeEdges(ScriptTape(t, Read(dict, groups)))
  {
    if groups == [] {
      assert Still(0) == [];
    } else {
      var n := |groups| - 1;
      TextLine(dict, t, groups[..n]);
      GroupLine(dict, t, Read(dict, groups[..n]), groups[n]);
      LineConcat(t, AllItems(dict, groups[..n]), GroupItems(dict, groups[n], |groups[n]|));
    }
  }

  // ---- how the letters decode ----

  /** The timing suits a detimer set up for c. */
  predicate Suits(t: Timing, c: Setup) {
    && Workable(c) && 0 < c.period && ValidTiming(t)
    && Near(Dit, t.dit, c.d, c.j) && Near(Dah, t.dah, c.d, c.j)
    && ElementGap(t.ies, c) && LetterGap(t.ils, c) && WordGap(t.iws, c)
  }

  lemma {:induction false} TextConcat(a: seq<Segment>, b: seq<Segment>, c: Setup)
    ensures Text(a + b, c) == Text(a, c) + Text(b, c)
  {
    if b == [] {
      assert a + b == a && Text(a, c) + "" == Text(a, c);
    } else {
      assert (a + b)[..|a + b| - 1] == a + b[..|b| - 1];
      TextConcat(a, b[..|b| - 1], c);
    }
  }

  lemma GapAfterLetter(t: Timing, l: Letter, c: Setup)
    requires Suits(t, c)
    ensures l.spaces == 0 ==> LetterGap(LetterGapOf(t, l), c)
    ensures l.spaces > 0 ==> WordGap(LetterGapOf(t, l), c)
  {
    StretchIs(t, c);
    if l.spaces > 0 {
      Stretched(l.spaces, Stretch(t));
    }
  }

  lemma StretchIs(t: Timing, c: Setup)
    requires Suits(t, c)
    ensures t.ils + Stretch(t) == t.iws
  {
  }

  lemma Stretched(n: nat, p: nat)
    requires 0 < n
    ensures p <= n * p
  {
  }

  lemma {:induction false} CodeText(t: Timing, l: Letter, n: nat, c: Setup)
    requires Suits(t, c) && ValidCode(l.code) && n <= |l.code|
    ensures var segs := CodeSegs(t, l.code, n, LetterGapOf(t, l));
      && AllLegible(segs, c)
      && Text(segs, c) == l.code[..n] +
           if n == 0 || n < |l.code| then "" else if l.spaces == 0 then " " else "  "
  {
    if n > 0 {
      CodeText(t, l, n - 1, c);
      GapAfterLetter(t, l, c);
      var before := CodeSegs(t, l.code, n - 1, LetterGapOf(t, l));
      var e := ElementOf(l.code[n - 1]);
      var last := Segment(e, MarkOf(t, e), if n == |l.code| then LetterGapOf(t, l) else t.ies);
      assert CodeSegs(t, l.code, n, LetterGapOf(t, l)) == before + [last];
      GapsDiffer(last.gap, c);
      PrefixGrows(l.code, n);
      ElementText(before, last, l.code[..n - 1], l.code[n - 1], c);
    } else {
      assert l.code[..0] + "" == "";
    }
  }

  lemma PrefixGrows(code: string, n: nat)
    requires 0 < n <= |code|
    ensures code[..n] == code[..n - 1] + [code[n - 1]] && code[..n - 1] + "" == code[..n - 1]
  {
  }

  lemma GapsDiffer(gap: nat, c: Setup)
    requires Workable(c) && 0 < c.period
    ensures LetterGap(gap, c) || WordGap(gap, c) ==> !ElementGap(gap, c)
    ensures WordGap(gap, c) ==> !LetterGap(gap, c)
  {
  }

  lemma ElementText(segs: seq<Segment>, s: Segment, sofar: string, mark: char, c: Setup)
    requires Text(segs, c) == sofar && AllLegible(segs, c) && Legible(s, c)
    requires s.key == ElementOf(mark) && (mark == '.' || mark == '-')
    ensures AllLegible(segs + [s], c)
    ensures Text(segs + [s], c) == (sofar + [mark]) +
      if ElementGap(s.gap, c) then "" else if LetterGap(s.gap, c) then " " else "  "
  {
    assert (segs + [s])[..|segs|] == segs;
  }

  lemma {:induction false} LettersText(t: Timing, letters: seq<Letter>, c: Setup)
    requires Suits(t, c) && Coded(letters)
    ensures AllLegible(AllSegs(t, letters), c)
    ensures Text(AllSegs(t, letters), c) == Expected(letters)
  {
    if letters != [] {
      var n := |letters| - 1;
      var l := letters[n];
      LettersText(t, letters[..n], c);
      CodeText(t, l, |l.code|, c);
      TextConcat(AllSegs(t, letters[..n]), LetterSegs(t, l), c);
      assert l.code[..|l.code|] == l.code;
    }
  }
}
