/** The plug-in processor of PluginProcessor.cpp, as far as it keeps state
    of its own: the attribute names the host state is saved under, saving and
    restoring the UI size and the parameters, and selecting a factory preset.

    The XML blob the host stores is reduced to an `Element`: a tag name and a
    map from attribute names to numbers.  Encoding that element to bytes and
    decoding it again (`copyXmlToBinary`, `getXmlFromBinary`) are outside the
    model; a blob that does not decode is `None`. */
module Processor {
  import opened Numerics
  import opened Controls
  import opened Parameters

  // ---------------------------------------------------------------------
  // Attribute names
  // ---------------------------------------------------------------------

  /** The characters the sanitising loops keep: a letter or digit, '_', '-'
      or ':'.  Letters and digits are the ASCII ones. */
  predicate KeepChar(c: char)
  {
    ('a' <= c <= 'z') || ('A' <= c <= 'Z') || ('0' <= c <= '9') || c == '_' || c == '-' || c == ':'
  }

  /** The name the sanitising loop has built after reading the first n
      characters of s: every kept character appended in turn. */
  function Kept(s: string, n: nat): (r: string)
    requires n <= |s|
    ensures |r| <= n
  {
    if n == 0 then [] else Kept(s, n - 1) + (if KeepChar(s[n - 1]) then [s[n - 1]] else [])
  }

  /** The attribute name made from a control name. */
  function Sanitised(s: string): string
  {
    Kept(s, |s|)
  }

  /** The sanitising loop: walks the characters of s and appends each kept
      one to the name. */
  method SanitiseName(s: string) returns (name: string)
    ensures name == Sanitised(s)
  {
    name := "";
    var i := 0;
    while i < |s|
      invariant 0 <= i <= |s|
      invariant name == Kept(s, i)
    {
      if KeepChar(s[i]) {
        name := name + [s[i]];
      }
      i := i + 1;
    }
  }

  /** idx lists, in increasing order, exactly the positions below n of s
      that hold a kept character, and r spells out the characters at those
      positions.  So r is a subsequence of s[..n] that keeps every kept
      character and nothing else. */
  ghost predicate Picks(s: string, n: nat, idx: seq<int>, r: string)
    requires n <= |s|
  {
    |idx| == |r| &&
    (forall j :: 0 <= j < |idx| ==> 0 <= idx[j] < n && r[j] == s[idx[j]]) &&
    (forall j, k :: 0 <= j < k < |idx| ==> idx[j] < idx[k]) &&
    (forall i :: 0 <= i < n ==> (KeepChar(s[i]) <==> i in idx))
  }

  /** Reading a kept character extends the positions by the one just read. */
  lemma PicksKeep(s: string, n: nat, idx: seq<int>, r: string)
    requires n < |s| && KeepChar(s[n]) && Picks(s, n, idx, r)
    ensures Picks(s, n + 1, idx + [n], r + [s[n]])
  {
    var idx', r' := idx + [n], r + [s[n]];
    assert forall j :: 0 <= j < |idx| ==> idx'[j] == idx[j] && r'[j] == r[j];
    forall i | 0 <= i < n + 1
      ensures KeepChar(s[i]) <==> i in idx'
    {
      assert i in idx' <==> i in idx || i in [n];
    }
  }

  /** Reading a dropped character leaves the positions as they are. */
  lemma PicksSkip(s: string, n: nat, idx: seq<int>, r: string)
    requires n < |s| && !KeepChar(s[n]) && Picks(s, n, idx, r)
    ensures Picks(s, n + 1, idx, r)
  {
    forall i | 0 <= i < n + 1
      ensures KeepChar(s[i]) <==> i in idx
    {
      if i == n {
        assert i !in idx;
      }
    }
  }

  /** The sanitised name keeps exactly the kept characters of the control
      name, in their original order. */
  lemma {:induction false} KeptPicks(s: string, n: nat)
    requires n <= |s|
    ensures exists idx :: Picks(s, n, idx, Kept(s, n))
    decreases n
  {
    if n == 0 {
      assert Picks(s, 0, [], Kept(s, 0));
    } else {
      KeptPicks(s, n - 1);
      var r := Kept(s, n - 1);
      var idx :| Picks(s, n - 1, idx, r);
      if KeepChar(s[n - 1]) {
        PicksKeep(s, n - 1, idx, r);
        assert Picks(s, n, idx + [n - 1], Kept(s, n));
      } else {
        PicksSkip(s, n - 1, idx, r);
        assert Picks(s, n, idx, Kept(s, n));
      }
    }
  }

  lemma SanitisedPicks(s: string)
    ensures exists idx :: Picks(s, |s|, idx, Sanitised(s))
  {
    KeptPicks(s, |s|);
    var idx :| Picks(s, |s|, idx, Kept(s, |s|));
    assert Picks(s, |s|, idx, Sanitised(s));
  }

  /** A string of kept characters passes through the loop unchanged. */
  lemma {:induction false} KeptAllKept(s: string, n: nat)
    requires n <= |s|
    requires forall i :: 0 <= i < n ==> KeepChar(s[i])
    ensures Kept(s, n) == s[..n]
    decreases n
  {
    if n > 0 {
      KeptAllKept(s, n - 1);
      assert s[..n] == s[..n - 1] + [s[n - 1]];
    }
  }

  /** The loop appends kept characters only. */
  lemma {:induction false} KeptOnlyKept(s: string, n: nat)
    requires n <= |s|
    ensures forall j :: 0 <= j < |Kept(s, n)| ==> KeepChar(Kept(s, n)[j])
    decreases n
  {
    if n > 0 {
      KeptOnlyKept(s, n - 1);
      var a := Kept(s, n - 1);
      var b := if KeepChar(s[n - 1]) then [s[n - 1]] else [];
      assert Kept(s, n) == a + b;
      assert forall j :: 0 <= j < |a| ==> (a + b)[j] == a[j];
    }
  }

  /** Sanitising a sanitised name changes nothing. */
  lemma SanitisedIdempotent(s: string)
    ensures Sanitised(Sanitised(s)) == Sanitised(s)
  {
    var r := Sanitised(s);
    KeptOnlyKept(s, |s|);
    KeptAllKept(r, |r|);
    assert r[..|r|] == r;
  }

  /** The attribute name parameter p is saved and restored under. */
  function Key(p: int): string
    requires 0 <= p < NumberOfControls
  {
    Sanitised(UiControls[p].name)
  }

  /** A name that starts with two kept characters keeps them as its first
      two. */
  lemma {:induction false} KeptStart(s: string, n: nat)
    requires 2 <= n <= |s| && KeepChar(s[0]) && KeepChar(s[1])
    ensures |Kept(s, n)| >= 2 && Kept(s, n)[..2] == s[..2]
    decreases n
  {
    if n > 2 {
      KeptStart(s, n - 1);
    } else {
      assert Kept(s, 1) == [s[0]];
    }
  }

  /** The first two characters of every control name. */
  const NameStarts: seq<string> := ["Th", "Ra", "Ma", "De", "Pe", "RM", "Co", "Th", "Ra", "Ma", "At", "Re",
    "Ce", "Mo", "Kn", "Lo"]

  /** Only the repeated knobs share their first two characters. */
  lemma NameStartsDistinct()
    ensures forall p, q :: 0 <= p < q < NumberOfParameters ==>
      (NameStarts[p] == NameStarts[q] <==> p <= MakeupHighParam && q == p + 7)
  {
  }

  /** No control name starts with a lower-case u. */
  lemma NameStartsNotU()
    ensures forall p :: 0 <= p < NumberOfParameters ==> NameStarts[p][0] != 'u'
  {
  }

  lemma NameStartsTable()
    ensures forall p :: 0 <= p < NumberOfParameters ==>
      |UiControls[p].name| >= 2 && UiControls[p].name[..2] == NameStarts[p]
  {
  }

  /** Every parameter's key begins with the first two characters of its
      control's name, and so with its entry in `NameStarts`. */
  lemma KeyStarts(p: int)
    requires 0 <= p < NumberOfParameters
    ensures |Key(p)| >= 2 && Key(p)[..2] == NameStarts[p]
  {
    NameStartsTable();
    var s := UiControls[p].name;
    assert KeepChar(NameStarts[p][0]) && KeepChar(NameStarts[p][1]);
    assert s[0] == NameStarts[p][0] && s[1] == NameStarts[p][1];
    KeptStart(s, |s|);
  }

  /** Two parameters share an attribute name exactly when they are the same
      knob of the two bands: threshold, ratio and makeup gain (0 and 7, 1 and
      8, 2 and 9).  No parameter is saved under a UI-size name. */
  lemma DuplicateKeys()
    ensures forall p, q :: 0 <= p < q < NumberOfParameters ==>
      (Key(p) == Key(q) <==> p <= MakeupHighParam && q == p + 7)
    ensures forall p :: 0 <= p < NumberOfParameters ==> Key(p) != "uiWidth" && Key(p) != "uiHeight"
  {
    NameStartsDistinct();
    forall p, q | 0 <= p < q < NumberOfParameters
      ensures Key(p) == Key(q) <==> p <= MakeupHighParam && q == p + 7
    {
      if p <= MakeupHighParam && q == p + 7 {
        assert UiControls[p].name == UiControls[q].name;
      } else {
        KeyStarts(p);
        KeyStarts(q);
      }
    }
    forall p | 0 <= p < NumberOfParameters
      ensures Key(p) != "uiWidth" && Key(p) != "uiHeight"
    {
      KeyNotSize(p);
    }
  }

  /** No parameter is saved under a UI-size name. */
  lemma KeyNotSize(p: int)
    requires 0 <= p < NumberOfParameters
    ensures Key(p) != "uiWidth" && Key(p) != "uiHeight"
  {
    NameStartsNotU();
    KeyStarts(p);
    assert Key(p)[0] == NameStarts[p][0];
  }

  // ---------------------------------------------------------------------
  // The saved state
  // ---------------------------------------------------------------------

  /** An XML element as the state code uses it: a tag name and attributes
      holding numbers. */
  datatype Element = Element(tag: string, attrs: map<string, real>)

  const StateTag: string := "MYPLUGINSETTINGS"

  /** `getDoubleAttribute(name, default)`. */
  function DoubleAttribute(e: Element, name: string, default: real): real
  {
    if name in e.attrs then e.attrs[name] else default
  }

  /** `getIntAttribute(name, default)`: the number read back as an int,
      truncated toward zero. */
  function IntAttribute(e: Element, name: string, default: int): int
  {
    if name in e.attrs then TruncToInt(e.attrs[name]) else default
  }

  /** The attribute names of the parameters, in index order. */
  function Keys(): (ks: seq<string>)
    ensures |ks| == NumberOfParameters
    ensures forall p :: 0 <= p < NumberOfParameters ==> ks[p] == Key(p)
  {
    seq(NumberOfParameters, p requires 0 <= p < NumberOfParameters => Key(p))
  }

  /** The attributes `getStateInformation` has set after the UI size and the
      first n parameters, parameter p under the name keys[p]: each parameter
      is set in index order, and setting a name that is already there
      replaces its value. */
  function SavedAttrs(w: int, h: int, vals: seq<real>, keys: seq<string>, n: nat): map<string, real>
    requires n <= |vals| && n <= |keys|
  {
    if n == 0 then map["uiWidth" := w as real, "uiHeight" := h as real]
    else SavedAttrs(w, h, vals, keys, n - 1)[keys[n - 1] := vals[n - 1]]
  }

  /** The element `getStateInformation` saves for UI size w by h and the
      parameter values vals. */
  function SavedState(w: int, h: int, vals: seq<real>): Element
    requires |vals| == NumberOfParameters
  {
    Element(StateTag, SavedAttrs(w, h, vals, Keys(), |vals|))
  }

  /** The saved attributes are the two UI-size names and the names of the
      parameters saved so far, and nothing else. */
  lemma {:induction false} SavedNames(w: int, h: int, vals: seq<real>, keys: seq<string>, n: nat, name: string)
    requires n <= |vals| && n <= |keys|
    ensures name in SavedAttrs(w, h, vals, keys, n) <==>
      name == "uiWidth" || name == "uiHeight" || exists p :: 0 <= p < n && keys[p] == name
    decreases n
  {
    if n > 0 {
      SavedNames(w, h, vals, keys, n - 1, name);
      if name == keys[n - 1] {
        assert 0 <= n - 1 < n && keys[n - 1] == name;
      } else if exists p :: 0 <= p < n && keys[p] == name {
        var p :| 0 <= p < n && keys[p] == name;
        assert p < n - 1;
      }
    } else {
      assert SavedAttrs(w, h, vals, keys, 0).Keys == {"uiWidth", "uiHeight"};
    }
  }

  /** The last writer wins: a parameter whose name no later parameter
      repeats is saved with its own value. */
  lemma {:induction false} SavedLastWriter(w: int, h: int, vals: seq<real>, keys: seq<string>, n: nat, q: int)
    requires n <= |vals| && n <= |keys| && 0 <= q < n
    requires forall r :: q < r < n ==> keys[r] != keys[q]
    ensures keys[q] in SavedAttrs(w, h, vals, keys, n) && SavedAttrs(w, h, vals, keys, n)[keys[q]] == vals[q]
    decreases n
  {
    if q < n - 1 {
      SavedLastWriter(w, h, vals, keys, n - 1, q);
    }
  }

  /** The UI size survives every parameter attribute when no parameter is
      saved under a UI-size name. */
  lemma {:induction false} SavedSize(w: int, h: int, vals: seq<real>, keys: seq<string>, n: nat)
    requires n <= |vals| && n <= |keys|
    requires forall p :: 0 <= p < n ==> keys[p] != "uiWidth" && keys[p] != "uiHeight"
    ensures "uiWidth" in SavedAttrs(w, h, vals, keys, n) && SavedAttrs(w, h, vals, keys, n)["uiWidth"] == w as real
    ensures "uiHeight" in SavedAttrs(w, h, vals, keys, n) && SavedAttrs(w, h, vals, keys, n)["uiHeight"] == h as real
    decreases n
  {
    if n > 0 {
      SavedSize(w, h, vals, keys, n - 1);
    }
  }

  /** The parameter values `setStateInformation` leaves after reading e
      when they were vals: each parameter takes the attribute under its key
      and keeps its value when there is none. */
  function Restored(e: Element, vals: seq<real>): (r: seq<real>)
    requires |vals| == NumberOfParameters
    ensures |r| == NumberOfParameters
    ensures forall p :: 0 <= p < NumberOfParameters && Key(p) in e.attrs ==> r[p] == e.attrs[Key(p)]
    ensures forall p :: 0 <= p < NumberOfParameters && Key(p) !in e.attrs ==> r[p] == vals[p]
  {
    seq(NumberOfParameters, p requires 0 <= p < NumberOfParameters => DoubleAttribute(e, Key(p), vals[p]))
  }

  /** The parameter whose value survives under p's key: the low-band knob for
      the three high-band knobs that share a name with it, p itself for
      every other parameter (`KeyOwnerShares`). */
  function KeyOwner(p: int): (q: int)
    requires 0 <= p < NumberOfParameters
    ensures p <= q < NumberOfParameters
  {
    if p <= MakeupHighParam then p + 7 else p
  }

  /** The owner of p's key has that key, and no parameter after it does. */
  lemma KeyOwnerShares(p: int)
    requires 0 <= p < NumberOfParameters
    ensures Key(KeyOwner(p)) == Key(p)
    ensures forall r :: KeyOwner(p) < r < NumberOfParameters ==> Key(r) != Key(p)
  {
    DuplicateKeys();
    forall r | KeyOwner(p) < r < NumberOfParameters
      ensures Key(r) != Key(p)
    {
      if p <= MakeupHighParam {
        assert Key(r) != Key(p + 7);
      }
    }
  }

  /** Saving and then restoring gives back the UI size, and gives each
      parameter the value saved under its key: its own value, except for the
      high-band threshold, ratio and makeup gain, which receive their low-band
      partners' values.  Whatever the parameters held before is irrelevant. */
  lemma SaveRestore(w: int, h: int, vals: seq<real>, cur: seq<real>)
    requires |vals| == NumberOfParameters && |cur| == NumberOfParameters
    ensures var e := SavedState(w, h, vals);
      e.tag == StateTag &&
      IntAttribute(e, "uiWidth", 0) == w && IntAttribute(e, "uiHeight", 0) == h &&
      forall p :: 0 <= p < NumberOfParameters ==> Restored(e, cur)[p] == vals[KeyOwner(p)]
  {
    var e := SavedState(w, h, vals);
    var ks := Keys();
    forall p | 0 <= p < NumberOfParameters
      ensures ks[p] != "uiWidth" && ks[p] != "uiHeight"
    {
      KeyNotSize(p);
    }
    SavedSize(w, h, vals, ks, |vals|);
    TruncOfWhole(w);
    TruncOfWhole(h);
    forall p | 0 <= p < NumberOfParameters
      ensures Restored(e, cur)[p] == vals[KeyOwner(p)]
    {
      RestoredFromOwner(w, h, vals, cur, p);
    }
  }

  lemma RestoredFromOwner(w: int, h: int, vals: seq<real>, cur: seq<real>, p: int)
    requires |vals| == NumberOfParameters && |cur| == NumberOfParameters && 0 <= p < NumberOfParameters
    ensures Restored(SavedState(w, h, vals), cur)[p] == vals[KeyOwner(p)]
  {
    var q, ks := KeyOwner(p), Keys();
    KeyOwnerShares(p);
    assert forall r :: q < r < NumberOfParameters ==> ks[r] != ks[q];
    SavedLastWriter(w, h, vals, ks, |vals|, q);
  }

  /** The round trip restores every parameter exactly when each shared name
      holds the same value in both bands. */
  lemma SaveRestoreExact(w: int, h: int, vals: seq<real>, cur: seq<real>)
    requires |vals| == NumberOfParameters && |cur| == NumberOfParameters
    ensures Restored(SavedState(w, h, vals), cur) == vals <==>
      vals[ThresholdHighParam] == vals[ThresholdLowParam] && vals[RatioHighParam] == vals[RatioLowParam] &&
      vals[MakeupHighParam] == vals[MakeupLowParam]
  {
    if vals[0] == vals[7] && vals[1] == vals[8] && vals[2] == vals[9] {
      RestoresAll(w, h, vals, cur);
    } else {
      var p :| 0 <= p <= MakeupHighParam && vals[p] != vals[p + 7];
      RestoredFromOwner(w, h, vals, cur, p);
    }
  }

  lemma RestoresAll(w: int, h: int, vals: seq<real>, cur: seq<real>)
    requires |vals| == NumberOfParameters && |cur| == NumberOfParameters
    requires vals[0] == vals[7] && vals[1] == vals[8] && vals[2] == vals[9]
    ensures Restored(SavedState(w, h, vals), cur) == vals
  {
    var r := Restored(SavedState(w, h, vals), cur);
    forall p | 0 <= p < NumberOfParameters
      ensures r[p] == vals[p]
    {
      RestoredFromOwner(w, h, vals, cur, p);
    }
  }

  /** One step of a loop that overwrites a sequence front to back: writing
      slot p of new values over a sequence whose first p slots are already
      new extends the new prefix by one. */
  lemma SpliceStep(next: seq<real>, before: seq<real>, p: nat)
    requires |next| == |before| && p < |before|
    ensures (next[..p] + before[p..])[p := next[p]] == next[..p + 1] + before[p + 1..]
  {
    var a := (next[..p] + before[p..])[p := next[p]];
    var b := next[..p + 1] + before[p + 1..];
    assert |a| == |b|;
    forall j | 0 <= j < |a|
      ensures a[j] == b[j]
    {
      if j < p {
        assert a[j] == next[j] == b[j];
      } else if j > p {
        assert a[j] == before[j] == b[j];
      }
    }
  }

  // ---------------------------------------------------------------------
  // The processor
  // ---------------------------------------------------------------------

  /** `PluginAudioProcessor`, reduced to what its state code touches: the
      current program, the remembered UI size and the effect's parameter
      store. */
  class PluginAudioProcessor {
    var program: int
    var lastUIWidth: int
    var lastUIHeight: int
    /** The parameters of the effect the processor delegates to. */
    const effect: ParameterStore

    ghost predicate Valid()
      reads this, effect
    {
      effect.Valid() && effect.count == NumberOfParameters
    }

    /** Program 0, a 1280 by 600 editor, and an effect whose parameters hold
        their controls' initial values. */
    constructor ()
      ensures Valid() && fresh(effect) && fresh(effect.values)
      ensures program == 0 && lastUIWidth == 1280 && lastUIHeight == 600
      ensures forall p :: 0 <= p < NumberOfParameters ==> effect.values[p] == UiControls[p].initial
    {
      program := 0;
      lastUIWidth := 1280;
      lastUIHeight := 600;
      effect := new ParameterStore.Effect();
    }

    function GetNumParameters(): (n: int)
      reads this, effect
      requires Valid()
      ensures n == NumberOfParameters == effect.values.Length
    {
      NumberOfParameters
    }

    function GetParameter(index: int): (v: real)
      reads this, effect, effect.values
      requires Valid()
      ensures 0 <= index < NumberOfParameters ==> v == effect.values[index]
      ensures (index < 0 || NumberOfParameters <= index) ==> v == 0.0
    {
      effect.GetParameter(index)
    }

    method SetParameter(index: int, newValue: real)
      requires Valid()
      modifies effect.values
      ensures 0 <= index < NumberOfParameters ==> effect.values[..] == old(effect.values[..])[index := newValue]
      ensures (index < 0 || NumberOfParameters <= index) ==> effect.values[..] == old(effect.values[..])
    {
      effect.SetParameter(index, newValue);
    }

    /** `getStateInformation`: the element it hands to the XML encoder. */
    method GetStateInformation() returns (xml: Element)
      requires Valid()
      ensures xml == SavedState(lastUIWidth, lastUIHeight, effect.values[..])
    {
      xml := Element(StateTag, map["uiWidth" := lastUIWidth as real, "uiHeight" := lastUIHeight as real]);
      var p := 0;
      while p < GetNumParameters()
        invariant 0 <= p <= NumberOfParameters
        invariant xml == Element(StateTag, SavedAttrs(lastUIWidth, lastUIHeight, effect.values[..], Keys(), p))
      {
        var name := SanitiseName(UiControls[p].name);
        xml := xml.(attrs := xml.attrs[name := GetParameter(p)]);
        p := p + 1;
      }
    }

    /** `setStateInformation`: a state that did not decode, or whose tag is
        not ours, changes nothing; otherwise the UI size and every parameter
        whose key is present are read back, and the rest keep their values. */
    method SetStateInformation(xmlState: Option<Element>)
      requires Valid()
      modifies this`lastUIWidth, this`lastUIHeight, effect.values
      ensures Valid()
      ensures (xmlState.None? || xmlState.value.tag != StateTag) ==>
        lastUIWidth == old(lastUIWidth) && lastUIHeight == old(lastUIHeight) &&
        effect.values[..] == old(effect.values[..])
      ensures xmlState.Some? && xmlState.value.tag == StateTag ==>
        lastUIWidth == IntAttribute(xmlState.value, "uiWidth", old(lastUIWidth)) &&
        lastUIHeight == IntAttribute(xmlState.value, "uiHeight", old(lastUIHeight)) &&
        effect.values[..] == Restored(xmlState.value, old(effect.values[..]))
    {
      if xmlState.Some? && xmlState.value.tag == StateTag {
        var xml := xmlState.value;
        lastUIWidth := IntAttribute(xml, "uiWidth", lastUIWidth);
        lastUIHeight := IntAttribute(xml, "uiHeight", lastUIHeight);
        RestoreParameters(xml);
      }
    }

    /** The parameter loop of `setStateInformation`: each parameter reads
        the attribute under its key, with its current value as the default. */
    method RestoreParameters(xml: Element)
      requires Valid()
      modifies effect.values
      ensures effect.values[..] == Restored(xml, old(effect.values[..]))
    {
      ghost var before := effect.values[..];
      var p := 0;
      while p < GetNumParameters()
        invariant 0 <= p <= NumberOfParameters
        invariant effect.values[..] == Restored(xml, before)[..p] + before[p..]
      {
        var name := SanitiseName(UiControls[p].name);
        SpliceStep(Restored(xml, before), before, p);
        SetParameter(p, DoubleAttribute(xml, name, GetParameter(p)));
        p := p + 1;
      }
    }

    /** `getNumPrograms`: the number of factory presets. */
    function GetNumPrograms(): (n: int)
      ensures n == |UiPresets| == 3
    {
      |UiPresets|
    }

    function GetCurrentProgram(): (i: int)
      reads this
      ensures i == program
    {
      program
    }

    /** `setCurrentProgram`: remembers the program and copies its preset
        into the parameters.  The C++ code indexes the preset table without
        a check, so the index must name a preset. */
    method SetCurrentProgram(index: int)
      requires Valid() && 0 <= index < GetNumPrograms()
      modifies this`program, effect.values
      ensures Valid() && program == index
      ensures effect.values[..] == UiPresets[index].value
    {
      program := index;
      PresetTableShape();
      LoadPreset(UiPresets[index].value);
    }

    /** The parameter loop of `setCurrentProgram`: every parameter in turn
        takes the preset's value. */
    method LoadPreset(preset: seq<real>)
      requires Valid() && |preset| == NumberOfParameters
      modifies effect.values
      ensures effect.values[..] == preset
    {
      ghost var before := effect.values[..];
      var p := 0;
      while p < NumberOfParameters
        invariant 0 <= p <= NumberOfParameters
        invariant effect.values[..] == preset[..p] + before[p..]
      {
        SpliceStep(preset, before, p);
        SetParameter(p, preset[p]);
        p := p + 1;
      }
    }

    /** `getProgramName`, which also indexes the table unchecked. */
    function GetProgramName(index: int): (name: string)
      requires 0 <= index < GetNumPrograms()
      ensures name == UiPresets[index].name
    {
      UiPresets[index].name
    }
  }
}
