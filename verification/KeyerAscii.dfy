/** What sdrtcl/keyer_ascii.c queues for a text, item by item. */
module MorseText {
  import opened Morse
  import opened MidiRecords
  import opened RingArithmetic

  /** Samples per element and space, as morse_timing leaves them. */
  datatype Timing = Timing(dit: nat, dah: nat, ies: nat, ils: nat, iws: nat)

  /** The channel, the note for dits and straight keying, and whether dahs have a note of their own. */
  datatype Voice = Voice(chan: int, note: int, two: bool)

  type Dict = map<char, string>

  /** A key-down, a key-up that ends a letter or not, or the extra pause for a space. */
  datatype Item = Down(e: Element) | Up(e: Element, ends: bool) | Pause

  predicate ValidTiming(t: Timing) {
    t.dit < WRAP && t.dah < WRAP && t.ies < WRAP && t.ils < WRAP && t.iws < WRAP
  }

  function Duration(t: Timing, i: Item): (d: nat)
    ensures ValidTiming(t) ==> d < WRAP
  {
    match i
    case Down(e) => if e.Dit? then t.dit else t.dah
    case Up(_, ends) => if ends then t.ils else t.ies
    case Pause => (t.iws - t.ils) % WRAP
  }

  function Note(v: Voice, e: Element): int {
    if e.Dah? && v.two then v.note + 1 else v.note
  }

  function RecordOf(t: Timing, v: Voice, i: Item): Record {
    match i
    case Down(e) => NoteOn(Duration(t, i), v.chan, Note(v, e), 1)
    case Up(e, _) => NoteOn(Duration(t, i), v.chan, Note(v, e), 0)
    case Pause => Record(Duration(t, i), [])
  }

  /**
   What is sent for each item: a note on with velocity 1 or 0 for a mark or space, the note of the voice, or for the
   dahs the next one if there are two; and nothing but time for a pause.
   */
  lemma RecordIs(t: Timing, v: Voice, i: Item)
    ensures var r := RecordOf(t, v, i);
      && (i.Pause? ==> r.payload == [])
      && (!i.Pause? ==>
        r.payload == [0x90 + v.chan - 1, if i.e.Dah? && v.two then v.note + 1 else v.note, if i.Down? then 1 else 0])
      && (i.Down? ==> r.duration == if i.e.Dit? then t.dit else t.dah)
      && (i.Up? ==> r.duration == if i.ends then t.ils else t.ies)
      && (i.Pause? && t.ils <= t.iws < WRAP ==> r.duration == t.iws - t.ils)
  {
  }

  function Records(t: Timing, v: Voice, items: seq<Item>): (rs: seq<Record>)
    ensures |rs| == |items|
  {
    if items == [] then []
    else Records(t, v, items[..|items| - 1]) + [RecordOf(t, v, items[|items| - 1])]
  }

  lemma {:induction false} RecordsAt(t: Timing, v: Voice, items: seq<Item>, k: nat)
    requires k < |items|
    ensures Records(t, v, items)[k] == RecordOf(t, v, items[k])
  {
    if k < |items| - 1 {
      RecordsAt(t, v, items[..|items| - 1], k);
    }
  }

  lemma {:induction false} RecordsConcat(t: Timing, v: Voice, a: seq<Item>, b: seq<Item>)
    ensures Records(t, v, a + b) == Records(t, v, a) + Records(t, v, b)
  {
    if b == [] {
      assert a + b == a;
    } else {
      assert (a + b)[..|a + b| - 1] == a + b[..|b| - 1];
      RecordsConcat(t, v, a, b[..|b| - 1]);
    }
  }

  /** The bytes staged for some items. */
  function Bytes(t: Timing, v: Voice, items: seq<Item>): seq<Byte> {
    EncodeAll(Records(t, v, items))
  }

  lemma BytesConcat(t: Timing, v: Voice, a: seq<Item>, b: seq<Item>)
    ensures Bytes(t, v, a + b) == Bytes(t, v, a) + Bytes(t, v, b)
  {
    RecordsConcat(t, v, a, b);
    EncodeConcat(Records(t, v, a), Records(t, v, b));
  }

  lemma BytesOne(t: Timing, v: Voice, i: Item)
    ensures Bytes(t, v, [i]) == Encode(RecordOf(t, v, i))
  {
    assert [i][..0] == [];
    assert Records(t, v, [i]) == [RecordOf(t, v, i)];
    EncodeOne(RecordOf(t, v, i));
  }

  // ---- characters ----

  predicate ValidCode(code: string) {
    forall k :: 0 <= k < |code| ==> code[k] == '.' || code[k] == '-'
  }

  function ElementOf(c: char): Element {
    if c == '.' then Dit else Dah
  }

  /** The items of the first n elements of a code. */
  function CodeItems(code: string, n: nat, continues: bool): seq<Item>
    requires n <= |code|
  {
    if n == 0 then [] else
      CodeItems(code, n - 1, continues) +
      [Down(ElementOf(code[n - 1])), Up(ElementOf(code[n - 1]), n == |code| && !continues)]
  }

  /** Codes come from the dictionary; a space is a pause; any other character is passed over. */
  function CharItems(dict: Dict, c: char, continues: bool): seq<Item> {
    if c in dict then CodeItems(dict[c], |dict[c]|, continues)
    else if c == ' ' then [Pause] else []
  }

  predicate Codable(dict: Dict, c: char) {
    c in dict ==> ValidCode(dict[c])
  }

  predicate ValidDict(dict: Dict) {
    forall c :: c in dict ==> ValidCode(dict[c])
  }

  lemma BytesPrefix(t: Timing, v: Voice, a: seq<Item>, b: seq<Item>)
    requires a <= b
    ensures |Bytes(t, v, a)| <= |Bytes(t, v, b)|
  {
    BytesConcat(t, v, a, b[|a|..]);
    assert b == a + b[|a|..];
  }

  // ---- prosigns ----

  /** Characters collected for a prosign, and how many backslashes asked for it. */
  datatype Typing = Typing(prosign: string, slashes: nat)

  /** After one character: the state, and the group of characters it completes, if it does. */
  datatype Typed = Typed(state: Typing, groups: seq<string>)

  function TypeOne(s: Typing, c: char): Typed {
    if c == '\\' then Typed(s.(slashes := s.slashes + 1), [])
    else if s.slashes != 0 then
      var p := s.prosign + [c];
      if |p| == s.slashes + 1 then Typed(Typing("", 0), [p]) else Typed(s.(prosign := p), [])
    else Typed(s, [[c]])
  }

  /** A text as groups of characters: single ones, and prosigns to be run together. */
  function TypeAll(s: Typing, text: string): Typed {
    if text == "" then Typed(s, []) else
      var before := TypeAll(s, text[..|text| - 1]);
      var last := TypeOne(before.state, text[|text| - 1]);
      Typed(last.state, before.groups + last.groups)
  }

  /** The backslashes of a text, counted. */
  function Slashes(text: string): nat {
    if text == "" then 0 else Slashes(text[..|text| - 1]) + if text[|text| - 1] == '\\' then 1 else 0
  }

  /** The other characters of a text. */
  function Plain(text: string): string {
    if text == "" then "" else Plain(text[..|text| - 1]) + if text[|text| - 1] == '\\' then "" else [text[|text| - 1]]
  }

  /** A backslash first, and nowhere more other characters than backslashes so far. */
  ghost predicate Open(text: string) {
    text != "" && text[0] == '\\' && forall n :: 0 < n <= |text| ==> OpenAt(text, n)
  }

  predicate OpenAt(text: string, n: nat) {
    n <= |text| && |Plain(text[..n])| <= Slashes(text[..n])
  }

  lemma {:induction false} OpenIsCollected(text: string)
    requires Open(text)
    ensures TypeAll(Typing("", 0), text) == Typed(Typing(Plain(text), Slashes(text)), []) && 0 < Slashes(text)
  {
    var n := |text| - 1;
    assert OpenAt(text, |text|) && text[..|text|] == text;
    if n == 0 {
      assert text[..0] == "" && text == "\\";
    } else {
      forall m | 0 < m <= n ensures OpenAt(text[..n], m) {
        assert OpenAt(text, m) && text[..n][..m] == text[..m];
      }
      OpenIsCollected(text[..n]);
    }
  }

  /**
   A backslash begins a prosign, and each further one before its end makes it one character longer: with n of them,
   wherever they are, it is the next n+1 other characters run together, and then text goes on as before.
   */
  lemma ProsignIsTyped(text: string, last: char)
    requires Open(text) && last != '\\' && |Plain(text)| == Slashes(text)
    ensures TypeAll(Typing("", 0), text + [last]) == Typed(Typing("", 0), [Plain(text) + [last]])
  {
    OpenIsCollected(text);
    assert (text + [last])[..|text|] == text;
  }

  /** Other characters stand by themselves. */
  lemma {:induction false} PlainIsTyped(text: string)
    requires '\\' !in text
    ensures TypeAll(Typing("", 0), text) == Typed(Typing("", 0), Singly(text))
  {
    if text != "" {
      PlainIsTyped(text[..|text| - 1]);
    }
  }

  function Singly(text: string): (s: seq<string>)
    ensures |s| == |text| && forall k :: 0 <= k < |s| ==> s[k] == [text[k]]
  {
    if text == "" then [] else Singly(text[..|text| - 1]) + [[text[|text| - 1]]]
  }

  /** A prosign that is finished but still collected, as one is that has failed. */
  predicate Stuck(s: Typing) {
    0 < s.slashes < |s.prosign|
  }

  /** What a failure leaves behind: a single character nothing, the last of a prosign the whole of it. */
  predicate Failed(s: Typing, c: char, s': Typing) {
    if s.slashes == 0 then s' == s else s' == Typing(s.prosign + [c], s.slashes) && Stuck(s')
  }

  /** From then on everything up to the next backslash is swallowed: nothing of it is queued, and nothing fails. */
  lemma {:induction false} SwallowsText(s: Typing, text: string)
    requires Stuck(s) && '\\' !in text
    ensures TypeAll(s, text) == Typed(Typing(s.prosign + text, s.slashes), [])
  {
    if text == "" {
      assert s.prosign + text == s.prosign;
    } else {
      var n := |text| - 1;
      SwallowsText(s, text[..n]);
      assert s.prosign + text == (s.prosign + text[..n]) + [text[n]];
    }
  }

  function Es(n: nat): (s: string)
    ensures |s| == n && '\\' !in s
  {
    seq(n, _ => 'E')
  }

  /** Characters short of a prosign are only collected. */
  lemma {:induction false} Collects(s: Typing, n: nat)
    requires 0 < s.slashes && |s.prosign| + n <= s.slashes
    ensures TypeAll(s, Es(n)) == Typed(Typing(s.prosign + Es(n), s.slashes), [])
  {
    if n == 0 {
      assert s.prosign + Es(0) == s.prosign;
    } else {
      Collects(s, n - 1);
      assert Es(n)[..n - 1] == Es(n - 1);
      assert s.prosign + Es(n) == (s.prosign + Es(n - 1)) + ['E'];
    }
  }

  ghost predicate Swallows(s: Typing, text: string) {
    '\\' !in text ==> TypeAll(s, text).groups == []
  }

  /** No text without a backslash ever leads to anything if and only if there is a prosign that has failed. */
  lemma SwallowsIffStuck(s: Typing)
    ensures (forall text :: Swallows(s, text)) <==> Stuck(s)
  {
    if Stuck(s) {
      forall text ensures Swallows(s, text) {
        if '\\' !in text {
          SwallowsText(s, text);
        }
      }
    } else {
      var n := if s.slashes == 0 then 0 else s.slashes - |s.prosign|;
      if s.slashes > 0 {
        Collects(s, n);
      }
      var text, before := Es(n + 1), TypeAll(s, Es(n));
      assert text[..n] == Es(n) && text[n] == 'E';
      assert TypeAll(s, text).groups == before.groups + TypeOne(before.state, 'E').groups;
      assert !Swallows(s, text);
    }
  }

  /** The items of the first n characters of a group; all but the group's last are run on. */
  function GroupItems(dict: Dict, group: string, n: nat): seq<Item>
    requires n <= |group|
  {
    if n == 0 then [] else
      GroupItems(dict, group, n - 1) + CharItems(dict, group[n - 1], n != |group|)
  }

  function AllItems(dict: Dict, groups: seq<string>): seq<Item> {
    if groups == [] then []
    else AllItems(dict, groups[..|groups| - 1]) + GroupItems(dict, groups[|groups| - 1], |groups[|groups| - 1]|)
  }

  /** The items of a text. */
  function ItemsOf(dict: Dict, s: Typing, text: string): seq<Item> {
    AllItems(dict, TypeAll(s, text).groups)
  }

  lemma AllItemsStep(dict: Dict, groups: seq<string>, before: seq<string>, last: string)
    requires groups == before + [last]
    ensures AllItems(dict, groups) == AllItems(dict, before) + GroupItems(dict, last, |last|)
  {
    assert groups[..|groups| - 1] == before;
  }

  lemma ItemsAssociate(a: seq<Item>, b: seq<Item>, c: seq<Item>)
    ensures (a + b) + c == a + (b + c)
  {
  }

  lemma {:induction false} AllItemsConcat(dict: Dict, a: seq<string>, b: seq<string>)
    ensures AllItems(dict, a + b) == AllItems(dict, a) + AllItems(dict, b)
  {
    if b == [] {
      assert a + b == a;
    } else {
      var m := |b| - 1;
      AllItemsConcat(dict, a, b[..m]);
      assert b == b[..m] + [b[m]] && a + b == (a + b[..m]) + [b[m]];
      AllItemsStep(dict, a + b, a + b[..m], b[m]);
      AllItemsStep(dict, b, b[..m], b[m]);
      ItemsAssociate(AllItems(dict, a), AllItems(dict, b[..m]), GroupItems(dict, b[m], |b[m]|));
    }
  }

  /** The arguments of puts, separated by spaces. */
  function Joined(args: seq<string>): string {
    if args == [] then "" else if |args| == 1 then args[0]
    else Joined(args[..|args| - 1]) + " " + args[|args| - 1]
  }

  lemma {:induction false} TypeAllConcat(s: Typing, a: string, b: string)
    ensures var r1 := TypeAll(s, a);
      var r2 := TypeAll(r1.state, b);
      TypeAll(s, a + b) == Typed(r2.state, r1.groups + r2.groups)
  {
    if b == "" {
      assert a + b == a;
    } else {
      assert (a + b)[..|a + b| - 1] == a + b[..|b| - 1];
      TypeAllConcat(s, a, b[..|b| - 1]);
    }
  }
}

/** sdrtcl/keyer_ascii.c: text to staged and published records. */
module KeyerAscii {
  import opened Morse
  import opened RingArithmetic
  import opened MidiBuffer
  import opened MorseText

  class Keyer {
    const midi: Midi
    const t: Timing
    const v: Voice
    const dict: Dict
    var prosign: string
    var slashes: nat

    ghost predicate Valid()
      reads midi, midi.ring, midi.ring.buff, midi.wring, midi.wring.buff, midi.rring, midi.rring.buff
    {
      midi.Valid() && ValidTiming(t)
    }

    ghost function State(): Typing
      reads this
    {
      Typing(prosign, slashes)
    }

    /** What is staged, and what is published and not yet taken. */
    ghost function Staged(): seq<Byte>
      requires Valid()
      reads midi, midi.ring, midi.ring.buff, midi.wring, midi.wring.buff, midi.rring, midi.rring.buff
    {
      midi.wring.Contents()
    }

    ghost function Published(): seq<Byte>
      requires Valid()
      reads midi, midi.ring, midi.ring.buff, midi.wring, midi.wring.buff, midi.rring, midi.rring.buff
    {
      midi.ring.Contents()
    }

    constructor (t: Timing, v: Voice, dict: Dict)
      requires ValidTiming(t)
      ensures Valid() && this.t == t && this.v == v && this.dict == dict
      ensures State() == Typing("", 0) && Staged() == [] && Published() == []
    {
      this.t, this.v, this.dict := t, v, dict;
      midi := new Midi();
      prosign, slashes := "", 0;
    }

    method QueueItem(i: Item) returns (ok: bool)
      requires Valid()
      modifies midi.wring, midi.wring.buff
      ensures Valid()
      ensures ok <==> |old(Staged())| + |Bytes(t, v, [i])| <= MIDI_BUFFER_BYTES
      ensures ok ==> Staged() == old(Staged()) + Bytes(t, v, [i])
    {
      BytesOne(t, v, i);
      var r;
      match i {
        case Down(e) => r := midi.QueueNoteOn(if e.Dit? then t.dit else t.dah, v.chan, Note(v, e), 1);
        case Up(e, ends) => r := midi.QueueNoteOn(if ends then t.ils else t.ies, v.chan, Note(v, e), 0);
        case Pause => r := midi.QueueDelay(Duration(t, Pause));
      }
      ok := r >= 0;
    }

    /** Stage one character: its code, a pause for a space, nothing for anything else. */
    method QueueMidi(c: char, continues: bool) returns (ok: bool)
      requires Valid()
      modifies midi.wring, midi.wring.buff
      ensures Valid()
      ensures var room := MIDI_BUFFER_BYTES - |old(Staged())|;
        ok <==> Codable(dict, c) && |Bytes(t, v, CharItems(dict, c, continues))| <= room
      ensures ok ==> Staged() == old(Staged()) + Bytes(t, v, CharItems(dict, c, continues))
    {
      if c !in dict {
        if c == ' ' {
          ok := QueueItem(Pause);
        } else {
          assert Bytes(t, v, []) == [];
          ok := true;
        }
      } else {
        ok := QueueCode(dict[c], continues);
      }
    }

    method QueueCode(code: string, continues: bool) returns (ok: bool)
      requires Valid()
      modifies midi.wring, midi.wring.buff
      ensures Valid()
      ensures var room := MIDI_BUFFER_BYTES - |old(Staged())|;
        ok <==> ValidCode(code) && |Bytes(t, v, CodeItems(code, |code|, continues))| <= room
      ensures ok ==> Staged() == old(Staged()) + Bytes(t, v, CodeItems(code, |code|, continues))
    {
      ghost var staged := Staged();
      assert staged + Bytes(t, v, []) == staged;
      for p := 0 to |code|
        invariant Valid() && ValidCode(code[..p])
        invariant Staged() == staged + Bytes(t, v, CodeItems(code, p, continues))
      {
        if code[p] != '.' && code[p] != '-' { return false; }
        var e := if code[p] == '.' then Dit else Dah;
        CodeBytesGrow(t, v, code, p, continues, staged);
        ok := QueueElement(e, p + 1 == |code| && !continues);
        if !ok { return; }
        ValidSoFar(code, p);
      }
      assert code[..|code|] == code;
      ok := true;
    }

    /** A mark and the space after it. */
    method QueueElement(e: Element, ends: bool) returns (ok: bool)
      requires Valid()
      modifies midi.wring, midi.wring.buff
      ensures Valid()
      ensures ok <==> |old(Staged())| + |Bytes(t, v, [Down(e), Up(e, ends)])| <= MIDI_BUFFER_BYTES
      ensures ok ==> Staged() == old(Staged()) + Bytes(t, v, [Down(e), Up(e, ends)])
    {
      assert [Down(e)] + [Up(e, ends)] == [Down(e), Up(e, ends)];
      BytesConcat(t, v, [Down(e)], [Up(e, ends)]);
      ok := QueueItem(Down(e));
      if ok { ok := QueueItem(Up(e, ends)); }
    }

    /** Of the items so far, `pub` have been published behind what the ring held, and the rest are staged. */
    ghost predicate Queued(ring0: seq<Byte>, items: seq<Item>, pub: nat)
      reads midi, midi.ring, midi.ring.buff, midi.wring, midi.wring.buff, midi.rring, midi.rring.buff
    {
      && Valid() && pub <= |items|
      && Published() == ring0 + Bytes(t, v, items[..pub])
      && Staged() == Bytes(t, v, items[pub..])
    }

    /** All of it could be staged at once. */
    ghost predicate Fit(items: seq<Item>) {
      |Bytes(t, v, items)| <= MIDI_BUFFER_BYTES
    }

    /** Stage a character and keep account. */
    method QueueChar(c: char, continues: bool, ghost ring0: seq<Byte>, ghost items: seq<Item>, ghost pub: nat)
      returns (ok: bool)
      requires Queued(ring0, items, pub)
      modifies midi.wring, midi.wring.buff
      ensures Valid() && Published() == old(Published())
      ensures ok ==> Queued(ring0, items + CharItems(dict, c, continues), pub)
      ensures !Codable(dict, c) ==> !ok
      ensures Codable(dict, c) && Fit(items + CharItems(dict, c, continues)) ==> ok
    {
      var more := CharItems(dict, c, continues);
      BytesConcat(t, v, items[..pub], items[pub..] + more);
      assert items[..pub] + (items[pub..] + more) == items + more;
      BytesConcat(t, v, items[pub..], more);
      assert (items + more)[..pub] == items[..pub] && (items + more)[pub..] == items[pub..] + more;
      ok := QueueMidi(c, continues);
    }

    /** Publish if there is room; keep account. */
    method FlushMidi(ghost ring0: seq<Byte>, ghost items: seq<Item>, ghost pub: nat) returns (ok: bool, ghost pub': nat)
      requires Queued(ring0, items, pub)
      modifies midi.wring, midi.ring, midi.ring.buff
      ensures Queued(ring0, items, pub') && pub <= pub'
      ensures ok ==> pub' == |items|
      ensures !ok ==> pub' == pub
      ensures |ring0| + |Bytes(t, v, items)| <= MIDI_BUFFER_BYTES ==> ok
    {
      BytesConcat(t, v, items[..pub], items[pub..]);
      assert items[..pub] + items[pub..] == items;
      var r := midi.Flush();
      ok := r >= 0;
      pub' := if ok then |items| else pub;
      assert items[..|items|] == items && items[|items|..] == [];
      BytesBehind(ring0, Bytes(t, v, items[..pub]), Bytes(t, v, items[pub..]));
    }

    /**
     One character of text.  A backslash, or a character short of its prosign, is only remembered; a finished
     prosign is staged whole and published at once if there is room; any other character is staged.
     */
    method QueueUnichar(c: char, ghost ring0: seq<Byte>, ghost items: seq<Item>, ghost pub: nat)
      returns (ok: bool, ghost pub': nat)
      requires Queued(ring0, items, pub)
      modifies this, midi.wring, midi.wring.buff, midi.ring, midi.ring.buff
      ensures Valid() && pub <= pub'
      ensures !ok ==> pub' == pub && Published() == ring0 + Bytes(t, v, items[..pub])
      ensures !ok ==> Failed(old(State()), c, State())
      ensures var r := TypeOne(old(State()), c);
        && (ok ==> State() == r.state && Queued(ring0, items + AllItems(dict, r.groups), pub'))
        && (ValidDict(dict) && Fit(items + AllItems(dict, r.groups)) ==> ok)
    {
      pub' := pub;
      assert items + [] == items;
      if c == '\\' {
        slashes := slashes + 1;
        ok := true;
      } else if slashes != 0 {
        ok, pub' := Collect(c, ring0, items, pub);
      } else {
        GroupAlone(dict, [c]);
        SingleGroup(dict, c);
        ok := QueueChar(c, false, ring0, items, pub);
      }
    }

    /** One character of a prosign; the last of them has the whole staged, and published if there is room. */
    method Collect(c: char, ghost ring0: seq<Byte>, ghost items: seq<Item>, ghost pub: nat)
      returns (ok: bool, ghost pub': nat)
      requires Queued(ring0, items, pub) && c != '\\' && slashes != 0
      modifies this, midi.wring, midi.wring.buff, midi.ring, midi.ring.buff
      ensures Valid() && pub <= pub'
      ensures !ok ==> pub' == pub && Published() == old(Published())
      ensures !ok ==> Failed(old(State()), c, State())
      ensures var r := TypeOne(old(State()), c);
        && (ok ==> State() == r.state && Queued(ring0, items + AllItems(dict, r.groups), pub'))
        && (ValidDict(dict) && Fit(items + AllItems(dict, r.groups)) ==> ok)
    {
      pub' := pub;
      assert items + [] == items;
      prosign := prosign + [c];
      ok := true;
      if |prosign| == slashes + 1 {
        GroupAlone(dict, prosign);
        ok := QueueGroup(prosign, ring0, items, pub);
        if !ok { return; }
        ghost var all := items + GroupItems(dict, prosign, |prosign|);
        prosign := "";
        slashes := 0;
        var _, p := FlushMidi(ring0, all, pub);
        pub' := p;
      }
    }

    /** Stage the characters of a prosign, all but the last run on. */
    method QueueGroup(group: string, ghost ring0: seq<Byte>, ghost items: seq<Item>, ghost pub: nat) returns (ok: bool)
      requires Queued(ring0, items, pub)
      modifies midi.wring, midi.wring.buff
      ensures Valid() && Published() == old(Published())
      ensures ok ==> Queued(ring0, items + GroupItems(dict, group, |group|), pub)
      ensures ValidDict(dict) && Fit(items + GroupItems(dict, group, |group|)) ==> ok
    {
      assert items + [] == items;
      for i := 0 to |group|
        invariant Queued(ring0, items + GroupItems(dict, group, i), pub)
        invariant Published() == old(Published())
      {
        ghost var before := items + GroupItems(dict, group, i);
        GroupNext(dict, t, v, group, i, items, before);
        ok := QueueChar(group[i], i != |group| - 1, ring0, before, pub);
        if !ok { return; }
      }
      ok := true;
    }

    /** A string, character by character. */
    method PutString(s: string, ghost s0: Typing, ghost text: string, ghost ring0: seq<Byte>, ghost pub: nat)
      returns (ok: bool, ghost pub': nat)
      requires Queued(ring0, ItemsOf(dict, s0, text), pub) && State() == TypeAll(s0, text).state
      modifies this, midi.wring, midi.wring.buff, midi.ring, midi.ring.buff
      ensures Valid()
      ensures !ok ==> PublishedPart(ring0, ItemsOf(dict, s0, text + s), pub')
      ensures ok ==> Queued(ring0, ItemsOf(dict, s0, text + s), pub') && State() == TypeAll(s0, text + s).state
      ensures ValidDict(dict) && Fit(ItemsOf(dict, s0, text + s)) ==> ok
    {
      pub' := pub;
      ok := true;
      assert text + s[..0] == text && s[..|s|] == s;
      ghost var items := ItemsOf(dict, s0, text);
      for i := 0 to |s|
        invariant ok && pub <= pub'
        invariant items == ItemsOf(dict, s0, text + s[..i]) && State() == TypeAll(s0, text + s[..i]).state
        invariant Queued(ring0, items, pub')
      {
        ghost var one := TypeOne(State(), s[i]);
        TypeNext(dict, s0, text, s, i, items, one);
        PartOfText(dict, s0, text, s, i);
        PartOfText(dict, s0, text, s, i + 1);
        BytesPrefix(t, v, items + AllItems(dict, one.groups), ItemsOf(dict, s0, text + s));
        ok, pub' := QueueUnichar(s[i], ring0, items, pub');
        if !ok {
          SamePrefix(items, ItemsOf(dict, s0, text + s), pub');
          return;
        }
        items := items + AllItems(dict, one.groups);
      }
    }

    /** Part of the arguments; if it fails, what has been published is a prefix of the whole. */
    method PutPart(s: string, ghost s0: Typing, ghost done: string, ghost all: string, ghost ring0: seq<Byte>,
                   ghost pub: nat)
      returns (ok: bool, ghost pub': nat)
      requires Queued(ring0, ItemsOf(dict, s0, done), pub) && State() == TypeAll(s0, done).state
      requires done + s <= all
      modifies this, midi.wring, midi.wring.buff, midi.ring, midi.ring.buff
      ensures Valid()
      ensures ok ==> Queued(ring0, ItemsOf(dict, s0, done + s), pub') && State() == TypeAll(s0, done + s).state
      ensures !ok ==> Staged() == [] && PublishedPart(ring0, ItemsOf(dict, s0, all), pub')
      ensures ValidDict(dict) && Fit(ItemsOf(dict, s0, all)) ==> ok
    {
      ItemsBefore(dict, s0, done + s, all);
      BytesPrefix(t, v, ItemsOf(dict, s0, done + s), ItemsOf(dict, s0, all));
      ok, pub' := PutString(s, s0, done, ring0, pub);
      if !ok {
        midi.Drop();
        PrefixItems(dict, s0, done + s, all, pub');
      }
    }

    ghost predicate PublishedPart(ring0: seq<Byte>, items: seq<Item>, pub: nat)
      requires Valid()
      reads midi, midi.ring, midi.ring.buff, midi.wring, midi.wring.buff, midi.rring, midi.rring.buff
    {
      pub <= |items| && Published() == ring0 + Bytes(t, v, items[..pub])
    }

    /**
     The puts command.  When it succeeds, exactly the items of its arguments, joined by spaces, are published
     behind what the ring held.  When it fails nothing stays staged, and only a prefix of them, whole records
     all, has been published.  With a proper dictionary it succeeds whenever there is room for all of them.
     */
    method Puts(args: seq<string>) returns (ok: bool, ghost pub: nat)
      requires Valid() && Staged() == []
      modifies this, midi.wring, midi.wring.buff, midi.ring, midi.ring.buff
      ensures Valid() && Staged() == []
      ensures PublishedPart(old(Published()), ItemsOf(dict, old(State()), Joined(args)), pub)
      ensures ok ==> pub == |ItemsOf(dict, old(State()), Joined(args))|
      ensures ok ==> State() == TypeAll(old(State()), Joined(args)).state
      ensures var room := MIDI_BUFFER_BYTES - |old(Published())|;
        ValidDict(dict) && |Bytes(t, v, ItemsOf(dict, old(State()), Joined(args)))| <= room ==> ok
    {
      ghost var ring0, s0, done, all := Published(), State(), "", Joined(args);
      pub := 0;
      assert args[..|args|] == args;
      assert ring0 + Bytes(t, v, []) == ring0;
      for i := 0 to |args|
        invariant done == Joined(args[..i]) + if 0 < i < |args| then " " else ""
        invariant Queued(ring0, ItemsOf(dict, s0, done), pub) && State() == TypeAll(s0, done).state
      {
        JoinedGrows(args, i);
        JoinedPrefix(args, i + 1);
        ok, pub := PutPart(args[i], s0, done, all, ring0, pub);
        if !ok { return; }
        done := done + args[i];
        if i != |args| - 1 {
          ok, pub := PutPart(" ", s0, done, all, ring0, pub);
          if !ok { return; }
          done := done + " ";
        }
      }
      assert done == all;
      ok, pub := FlushMidi(ring0, ItemsOf(dict, s0, all), pub);
      if !ok { midi.Drop(); }
    }
  }

  lemma GroupNext(dict: Dict, t: Timing, v: Voice, group: string, i: nat, items: seq<Item>, before: seq<Item>)
    requires i < |group| && before == items + GroupItems(dict, group, i)
    ensures before + CharItems(dict, group[i], i + 1 != |group|) == items + GroupItems(dict, group, i + 1)
    ensures |Bytes(t, v, items + GroupItems(dict, group, i + 1))|
      <= |Bytes(t, v, items + GroupItems(dict, group, |group|))|
  {
    ItemsAssociate(items, GroupItems(dict, group, i), CharItems(dict, group[i], i + 1 != |group|));
    GroupGrows(dict, group, i + 1);
    MorePrefix(t, v, items, GroupItems(dict, group, i + 1), GroupItems(dict, group, |group|));
  }

  lemma ItemsAssociate(a: seq<Item>, b: seq<Item>, c: seq<Item>)
    ensures (a + b) + c == a + (b + c)
  {
  }

  lemma MorePrefix(t: Timing, v: Voice, items: seq<Item>, next: seq<Item>, all: seq<Item>)
    requires next <= all
    ensures |Bytes(t, v, items + next)| <= |Bytes(t, v, items + all)|
  {
    BytesPrefix(t, v, items + next, items + all);
  }

  lemma ValidSoFar(code: string, p: nat)
    requires p < |code| && ValidCode(code[..p]) && (code[p] == '.' || code[p] == '-')
    ensures ValidCode(code[..p + 1])
  {
  }

  lemma SamePrefix(a: seq<Item>, b: seq<Item>, n: nat)
    requires n <= |a| && a <= b
    ensures a[..n] == b[..n]
  {
  }

  lemma BytesBehind(a: seq<Byte>, b: seq<Byte>, c: seq<Byte>)
    ensures (a + b) + c == a + (b + c)
  {
  }

  /** The bytes of the next element follow those before it, and a whole code is no shorter than its beginning. */
  lemma CodeBytesGrow(t: Timing, v: Voice, code: string, p: nat, continues: bool, staged: seq<Byte>)
    requires p < |code|
    ensures var e := ElementOf(code[p]);
      staged + Bytes(t, v, CodeItems(code, p + 1, continues)) == staged + Bytes(t, v, CodeItems(code, p, continues)) +
        Bytes(t, v, [Down(e), Up(e, p + 1 == |code| && !continues)])
    ensures |Bytes(t, v, CodeItems(code, p + 1, continues))| <= |Bytes(t, v, CodeItems(code, |code|, continues))|
  {
    var e := ElementOf(code[p]);
    BytesConcat(t, v, CodeItems(code, p, continues), [Down(e), Up(e, p + 1 == |code| && !continues)]);
    CodeBytesMonotone(t, v, code, p + 1, continues);
  }

  lemma {:induction false} CodeBytesMonotone(t: Timing, v: Voice, code: string, n: nat, continues: bool)
    requires n <= |code|
    ensures |Bytes(t, v, CodeItems(code, n, continues))| <= |Bytes(t, v, CodeItems(code, |code|, continues))|
    decreases |code| - n
  {
    if n < |code| {
      var more := [Down(ElementOf(code[n])), Up(ElementOf(code[n]), n + 1 == |code| && !continues)];
      BytesConcat(t, v, CodeItems(code, n, continues), more);
      CodeBytesMonotone(t, v, code, n + 1, continues);
    }
  }

  lemma GroupAlone(dict: Dict, group: string)
    ensures AllItems(dict, [group]) == GroupItems(dict, group, |group|)
  {
    assert [group][..0] == [];
    assert [] + GroupItems(dict, group, |group|) == GroupItems(dict, group, |group|);
  }

  lemma SingleGroup(dict: Dict, c: char)
    ensures GroupItems(dict, [c], 1) == CharItems(dict, c, false)
  {
    assert GroupItems(dict, [c], 0) == [];
  }

  lemma TypeStep(dict: Dict, s0: Typing, before: string, c: char, one: Typed)
    requires one == TypeOne(TypeAll(s0, before).state, c)
    ensures TypeAll(s0, before + [c]).state == one.state
    ensures ItemsOf(dict, s0, before + [c]) == ItemsOf(dict, s0, before) + AllItems(dict, one.groups)
  {
    assert (before + [c])[..|before|] == before;
    AllItemsConcat(dict, TypeAll(s0, before).groups, one.groups);
  }

  /** The i-th character of s, typed after text and the characters before it. */
  lemma TypeNext(dict: Dict, s0: Typing, text: string, s: string, i: nat, items: seq<Item>, one: Typed)
    requires i < |s| && items == ItemsOf(dict, s0, text + s[..i])
    requires one == TypeOne(TypeAll(s0, text + s[..i]).state, s[i])
    ensures TypeAll(s0, text + s[..i + 1]).state == one.state
    ensures ItemsOf(dict, s0, text + s[..i + 1]) == items + AllItems(dict, one.groups)
  {
    TypeStep(dict, s0, text + s[..i], s[i], one);
    assert (text + s[..i]) + [s[i]] == text + s[..i + 1];
  }

  /** What has been queued and what is queued next are no longer than the whole. */
  lemma PartOfText(dict: Dict, s0: Typing, text: string, s: string, i: nat)
    requires i <= |s|
    ensures ItemsOf(dict, s0, text + s[..i]) <= ItemsOf(dict, s0, text + s)
  {
    assert (text + s[..i]) + s[i..] == text + s;
    ItemsGrow(dict, s0, text + s[..i], s[i..]);
  }

  /** More text only adds items at the end. */
  lemma ItemsGrow(dict: Dict, s: Typing, text: string, more: string)
    ensures ItemsOf(dict, s, text) <= ItemsOf(dict, s, text + more)
  {
    TypeAllConcat(s, text, more);
    var r := TypeAll(s, text);
    AllItemsConcat(dict, r.groups, TypeAll(r.state, more).groups);
  }

  lemma ItemsBefore(dict: Dict, s: Typing, text: string, all: string)
    requires text <= all
    ensures ItemsOf(dict, s, text) <= ItemsOf(dict, s, all)
  {
    assert all == text + all[|text|..];
    ItemsGrow(dict, s, text, all[|text|..]);
  }

  /** The items of part of a group begin those of the whole. */
  lemma {:induction false} GroupGrows(dict: Dict, group: string, n: nat)
    requires n <= |group|
    ensures GroupItems(dict, group, n) <= GroupItems(dict, group, |group|)
    decreases |group| - n
  {
    if n < |group| {
      GroupGrows(dict, group, n + 1);
    }
  }

  lemma PrefixItems(dict: Dict, s: Typing, text: string, all: string, pub: nat)
    requires text <= all && pub <= |ItemsOf(dict, s, text)|
    ensures var items, more := ItemsOf(dict, s, text), ItemsOf(dict, s, all);
      pub <= |more| && items[..pub] == more[..pub]
  {
    ItemsBefore(dict, s, text, all);
  }

  lemma JoinedGrows(args: seq<string>, i: nat)
    requires i < |args|
    ensures Joined(args[..i + 1]) == (Joined(args[..i]) + if 0 < i then " " else "") + args[i]
  {
    assert args[..i + 1][..i] == args[..i];
  }

  /** The arguments so far, and the space after them if more follow, begin the whole. */
  lemma {:induction false} JoinedPrefix(args: seq<string>, i: nat)
    requires 0 < i <= |args|
    ensures Joined(args[..i]) + (if i < |args| then " " else "") <= Joined(args)
    decreases |args| - i
  {
    if i < |args| {
      JoinedGrows(args, i);
      JoinedPrefix(args, i + 1);
    } else {
      assert args[..i] == args;
    }
  }
}
