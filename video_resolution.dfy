/** The video-resolution table: height keys mapped to pixel dimensions, the
    label shown for an entry, and the list of options a resolution picker
    offers. JavaScript object keys are strings, so the table is keyed by the
    decimal text of each height. */
module VideoResolution {
  import opened Js

  /** One entry: `{ width, height, hdKey? }`; `None` is a missing hdKey. */
  datatype Resolution = Resolution(width: nat, height: nat, hdKey: Option<string>)

  /** The object literal, by its numeric keys. */
  const Table: map<nat, Resolution> := map[
    360 := Resolution(640, 360, None),
    480 := Resolution(640, 480, None),
    720 := Resolution(1280, 720, None),
    1080 := Resolution(1920, 1080, None),
    1440 := Resolution(2560, 1440, None),
    2160 := Resolution(3840, 2160, Some("4K")),
    7680 := Resolution(7680, 4320, Some("8K"))
  ]

  /** The table's keys in ascending order. */
  const KeyHeights: seq<nat> := [360, 480, 720, 1080, 1440, 2160, 7680]

  /** `resolutions[key]`: property names are strings, and the literal's
      numeric keys are stored under their decimal text, so `key` names an
      entry exactly when it is the text of one of the numeric keys. (Names
      inherited from Object.prototype are not modelled.) */
  function Lookup(key: string): Option<Resolution>
  {
    var n := ParseInt(key);
    if n.Some? && n.value >= 0 && n.value in Table && NatToString(n.value) == key
    then Some(Table[n.value])
    else None
  }

  /** `Object.keys(resolutions)`: keys that are array indices come out in
      ascending numeric order (ECMA-262 section 10.1.11.1). */
  function ObjectKeys(): (keys: seq<string>)
    ensures |keys| == |KeyHeights|
    ensures forall i :: 0 <= i < |keys| ==> keys[i] == NatToString(KeyHeights[i])
  {
    seq(|KeyHeights|, i requires 0 <= i < |KeyHeights| => NatToString(KeyHeights[i]))
  }

  /** A key is listed by `Object.keys` exactly when it selects an entry. */
  lemma ListedIffFound(key: string)
    ensures key in ObjectKeys() <==> Lookup(key).Some?
  {
    if Lookup(key).Some? {
      FoundIsListed(key);
    }
    if key in ObjectKeys() {
      var i :| 0 <= i < |ObjectKeys()| && ObjectKeys()[i] == key;
      LookupOfNatToString(KeyHeights[i]);
    }
  }

  lemma FoundIsListed(key: string)
    requires Lookup(key).Some?
    ensures key in ObjectKeys()
  {
    var n := ParseInt(key).value;
    assert n in KeyHeights;
    var i :| 0 <= i < |KeyHeights| && KeyHeights[i] == n;
    assert ObjectKeys()[i] == key;
  }

  /** Looking up the text of a number finds that number's entry. */
  lemma LookupOfNatToString(n: nat)
    ensures Lookup(NatToString(n)) == if n in Table then Some(Table[n]) else None
  {
    ParseIntOfNatToString(n);
  }

  /** `Object.keys` lists exactly the keys of the table, each once, in
      ascending numeric order, and each parses back to its number. */
  lemma ObjectKeysEnumerateTable()
    ensures |ObjectKeys()| == |KeyHeights| == 7
    ensures forall n :: n in Table <==> n in KeyHeights
    ensures forall i, j :: 0 <= i < j < 7 ==> KeyHeights[i] < KeyHeights[j]
    ensures forall key :: Lookup(key).Some? <==> key in ObjectKeys()
    ensures forall i :: 0 <= i < 7 ==> ParseInt(ObjectKeys()[i]) == Some(KeyHeights[i] as int)
  {
    forall key
      ensures Lookup(key).Some? <==> key in ObjectKeys()
    {
      ListedIffFound(key);
    }
    forall i | 0 <= i < 7
      ensures ParseInt(ObjectKeys()[i]) == Some(KeyHeights[i] as int)
    {
      ParseIntOfNatToString(KeyHeights[i]);
    }
  }

  /** A JavaScript string is truthy when it is not empty. */
  predicate HdKeyShown(r: Resolution)
  {
    r.hdKey.Some? && r.hdKey.value != ""
  }

  /** getLabel(resolution): "<height>p[ (<hdKey>)]: <width>x<height>". */
  function GetLabel(r: Resolution): string
  {
    var hd := if HdKeyShown(r) then " (" + r.hdKey.value + ")" else "";
    NatToString(r.height) + "p" + hd + ": " + NatToString(r.width) + "x" + NatToString(r.height)
  }

  /** The text of a label after its height. */
  function LabelRest(r: Resolution): string
  {
    "p" + (if HdKeyShown(r) then " (" + r.hdKey.value + ")" else "") + LabelTail(r)
  }

  /** The dimensions at the end of a label. */
  function LabelTail(r: Resolution): string
  {
    ": " + NatToString(r.width) + "x" + NatToString(r.height)
  }

  /** A label starts with the entry's height: parseInt reads it back, a `p`
      follows, and the character after the `p` tells whether an hdKey is shown. */
  lemma GetLabelHead(r: Resolution)
    ensures GetLabel(r) == NatToString(r.height) + LabelRest(r)
    ensures ParseInt(GetLabel(r)) == Some(r.height)
    ensures LabelRest(r)[0] == 'p'
    ensures HdKeyShown(r) <==> LabelRest(r)[1] == ' '
    ensures !HdKeyShown(r) ==> LabelRest(r)[1] == ':'
  {
    var h := NatToString(r.height);
    LabelRestStart(r);
    assert GetLabel(r) == h + LabelRest(r);
    LeadingDigitsOfPrefix(h, LabelRest(r));
    DigitsValueOfNatToString(r.height);
  }

  lemma LabelRestStart(r: Resolution)
    ensures |LabelRest(r)| >= 2 && LabelRest(r)[0] == 'p'
    ensures LabelRest(r)[1] == (if HdKeyShown(r) then ' ' else ':')
  {
    var hd := if HdKeyShown(r) then " (" + r.hdKey.value + ")" else "";
    assert LabelRest(r) == "p" + hd + LabelTail(r);
  }

  /** A label ends with `: <width>x<height>`. */
  lemma GetLabelTail(r: Resolution)
    ensures |GetLabel(r)| > |LabelTail(r)|
    ensures GetLabel(r)[|GetLabel(r)| - |LabelTail(r)|..] == LabelTail(r)
  {
    var hd := if HdKeyShown(r) then " (" + r.hdKey.value + ")" else "";
    var front := NatToString(r.height) + "p" + hd;
    assert GetLabel(r) == front + LabelTail(r);
  }

  /** The `value` of an option: the empty string, a number, or NaN. */
  datatype OptionValue = Blank | Int(n: int) | NaN

  /** `{ value, label }`; `label` is a reserved word in Dafny. */
  datatype ResolutionOption = ResolutionOption(value: OptionValue, labelText: string)

  /** parseOption(key): the sentinel `{ value: '', label: '' }` for a key that
      is not in the table, otherwise the parsed key and the entry's label. */
  function ParseOption(key: string): ResolutionOption
  {
    match Lookup(key)
    case None => ResolutionOption(Blank, "")
    case Some(r) =>
      var n := ParseInt(key);
      ResolutionOption(if n.Some? then Int(n.value) else NaN, GetLabel(r))
  }

  /** `keys.map(parseOption)`. */
  function ParseOptions(keys: seq<string>): (r: seq<ResolutionOption>)
    ensures |r| == |keys|
    ensures forall i :: 0 <= i < |keys| ==> r[i] == ParseOption(keys[i])
  {
    seq(|keys|, i requires 0 <= i < |keys| => ParseOption(keys[i]))
  }

  /** `Array.prototype.reverse` on a fresh array. */
  function Reverse<T>(s: seq<T>): (r: seq<T>)
    ensures |r| == |s|
    ensures forall i :: 0 <= i < |s| ==> r[i] == s[|s| - 1 - i]
  {
    seq(|s|, i requires 0 <= i < |s| => s[|s| - 1 - i])
  }

  /** Reversing a list moves its first element behind the reversed rest. */
  lemma ReverseCons<T>(s: seq<T>)
    requires |s| > 0
    ensures Reverse(s) == Reverse(s[1..]) + [s[0]]
  {
    var r := Reverse(s[1..]) + [s[0]];
    forall i | 0 <= i < |s|
      ensures Reverse(s)[i] == r[i]
    {
      if i < |s| - 1 {
        assert r[i] == s[1..][|s| - 2 - i];
      }
    }
  }

  /** Reversing keeps every element and its multiplicity. */
  lemma {:induction false} ReversePermutes<T>(s: seq<T>)
    ensures multiset(Reverse(s)) == multiset(s)
  {
    if |s| > 0 {
      ReverseCons(s);
      ReversePermutes(s[1..]);
      assert s == [s[0]] + s[1..];
    }
  }

  /** Reversing twice gives the list back. */
  lemma ReverseInvolutive<T>(s: seq<T>)
    ensures Reverse(Reverse(s)) == s
  {
    forall i | 0 <= i < |s|
      ensures Reverse(Reverse(s))[i] == s[i]
    {
      var j := |s| - 1 - i;
      assert Reverse(Reverse(s))[i] == Reverse(s)[j];
    }
  }

  /** `options`: every entry as `{ value, label }`, highest resolution first. */
  function Options(): seq<ResolutionOption>
  {
    Reverse(ParseOptions(ObjectKeys()))
  }

  /** A key yields the empty sentinel exactly when `Object.keys` does not
      list it. */
  lemma ParseOptionUnknownKey(key: string)
    ensures ParseOption(key) == ResolutionOption(Blank, "") <==> key !in ObjectKeys()
  {
    ListedIffFound(key);
    if Lookup(key).Some? {
      GetLabelTail(Lookup(key).value);
    }
  }

  /** A table key parses to the number it names and is labelled by its entry:
      `value == parseInt(key)`, for the key written from the number. */
  lemma ParseOptionOfKey(n: nat)
    requires n in Table
    ensures ParseOption(NatToString(n)) == ResolutionOption(Int(n), GetLabel(Table[n]))
  {
    LookupOfNatToString(n);
    ParseIntOfNatToString(n);
  }

  /** Exactly the numbers that are keys of the table have an entry under their text. */
  lemma LookupOfIntToString(n: int)
    ensures Lookup(IntToString(n)).Some? <==> n in Table
  {
    if n >= 0 {
      LookupOfNatToString(n);
    }
  }

  /** The listed keys are keys of the table, in strictly ascending order. */
  lemma KeyHeightsSorted()
    ensures |KeyHeights| == 7
    ensures forall j :: 0 <= j < 7 ==> KeyHeights[j] in Table
    ensures forall i, j :: 0 <= i < j < 7 ==> KeyHeights[i] < KeyHeights[j]
  {
  }

  /** Parsing the texts of table keys and reversing the result builds, at
      position i, the option of the i-th key counted from the end. */
  lemma OptionsOfKeys(keys: seq<string>, hs: seq<nat>)
    requires |keys| == |hs|
    requires forall i :: 0 <= i < |hs| ==> hs[i] in Table && keys[i] == NatToString(hs[i])
    ensures |Reverse(ParseOptions(keys))| == |hs|
    ensures forall i :: 0 <= i < |hs| ==>
              Reverse(ParseOptions(keys))[i] == ResolutionOption(Int(hs[|hs| - 1 - i]), GetLabel(Table[hs[|hs| - 1 - i]]))
  {
    forall i | 0 <= i < |hs|
      ensures Reverse(ParseOptions(keys))[i]
              == ResolutionOption(Int(hs[|hs| - 1 - i]), GetLabel(Table[hs[|hs| - 1 - i]]))
    {
      var h := hs[|hs| - 1 - i];
      OptionOfKeyAt(keys, i);
      ParseOptionOfKey(h);
    }
  }

  /** One position of a reversed list of parsed keys. */
  lemma OptionOfKeyAt(keys: seq<string>, i: nat)
    requires i < |keys|
    ensures |Reverse(ParseOptions(keys))| == |keys|
    ensures Reverse(ParseOptions(keys))[i] == ParseOption(keys[|keys| - 1 - i])
  {
    var p := ParseOptions(keys);
    var j := |keys| - 1 - i;
    ReverseAt(p, i);
    assert Reverse(p)[i] == p[j];
    assert p[j] == ParseOption(keys[j]);
  }

  lemma ReverseAt<T>(s: seq<T>, i: nat)
    requires i < |s|
    ensures |Reverse(s)| == |s| && Reverse(s)[i] == s[|s| - 1 - i]
  {
  }

  /** A list built back to front from ascending table keys: its values
      descend, each label is that of the entry its value names, and key k
      sits at position n-1-k. */
  lemma BuiltFromReversedKeys(o: seq<ResolutionOption>, hs: seq<nat>)
    requires |o| == |hs|
    requires forall i :: 0 <= i < |hs| ==> hs[i] in Table
    requires forall i, j :: 0 <= i < j < |hs| ==> hs[i] < hs[j]
    requires forall i :: 0 <= i < |o| ==>
               o[i] == ResolutionOption(Int(hs[|hs| - 1 - i]), GetLabel(Table[hs[|hs| - 1 - i]]))
    ensures forall i, j :: 0 <= i < j < |o| ==> o[i].value.n > o[j].value.n
    ensures forall i :: 0 <= i < |o| ==> o[i].labelText == GetLabel(Table[o[i].value.n])
    ensures forall k :: 0 <= k < |hs| ==> o[|hs| - 1 - k].value == Int(hs[k])
  {
    forall i, j | 0 <= i < j < |o|
      ensures o[i].value.n > o[j].value.n
    {
      assert o[i].value.n == hs[|hs| - 1 - i];
      assert o[j].value.n == hs[|hs| - 1 - j];
    }
    forall k | 0 <= k < |hs|
      ensures o[|hs| - 1 - k].value == Int(hs[k])
    {
      assert |hs| - 1 - (|hs| - 1 - k) == k;
    }
  }

  /** `options` lists the entries back to front. */
  lemma OptionsAreReversedTable()
    ensures |Options()| == 7
    ensures forall i :: 0 <= i < 7 ==>
              Options()[i] == ResolutionOption(Int(KeyHeights[6 - i]), GetLabel(Table[KeyHeights[6 - i]]))
  {
    KeyHeightsSorted();
    OptionsOfKeys(ObjectKeys(), KeyHeights);
  }

  /** `options` has seven entries, valued by the table's keys in strictly
      descending order (7680 first, 360 last), none of them the empty sentinel. */
  lemma OptionsDescending()
    ensures |Options()| == 7
    ensures forall i :: 0 <= i < 7 ==> Options()[i].value.Int? && Options()[i].value.n in Table
    ensures forall i :: 0 <= i < 7 ==> Options()[i] != ResolutionOption(Blank, "")
    ensures forall i, j :: 0 <= i < j < 7 ==> Options()[i].value.n > Options()[j].value.n
    ensures Options()[0].value == Int(7680) && Options()[6].value == Int(360)
  {
    OptionsAreReversedTable();
    KeyHeightsSorted();
    BuiltFromReversedKeys(Options(), KeyHeights);
  }

  /** Every table key is the value of some option. */
  lemma OptionsCoverTable()
    ensures forall n :: n in Table ==> exists i :: 0 <= i < |Options()| && Options()[i].value == Int(n)
  {
    OptionsAreReversedTable();
    KeyHeightsSorted();
    BuiltFromReversedKeys(Options(), KeyHeights);
    ObjectKeysEnumerateTable();
    var o := Options();
    forall n | n in Table
      ensures exists i :: 0 <= i < |o| && o[i].value == Int(n)
    {
      var k :| 0 <= k < 7 && KeyHeights[k] == n;
      assert o[6 - k].value == Int(n);
    }
  }

  /** Every option is labelled by the entry its value names. */
  lemma OptionsLabelled()
    ensures forall i :: 0 <= i < |Options()| ==>
              Options()[i].value.Int? && Options()[i].value.n in Table
              && Options()[i].labelText == GetLabel(Table[Options()[i].value.n])
  {
    OptionsAreReversedTable();
    KeyHeightsSorted();
    BuiltFromReversedKeys(Options(), KeyHeights);
  }

  /** Every key is its entry's height except the 8K one, keyed 7680 but 4320
      pixels high; since a label starts with the height (GetLabelHead), the
      8K label reads back as 4320, not as its key. */
  lemma LabelsUseEntryHeight()
    ensures forall n :: n in Table && n != 7680 ==> Table[n].height == n
    ensures Table[7680].height == 4320 != 7680
  {
  }

  /** The 8K entry's label in full, with its hdKey shown. */
  lemma EightKLabel()
    ensures GetLabel(Table[7680]) == "4320p (8K): 7680x4320"
  {
    var r := Table[7680];
    assert r == Resolution(7680, 4320, Some("8K"));
    assert HdKeyShown(r);
    HeightText8K();
    WidthText8K();
  }

  lemma HeightText8K()
    ensures NatToString(4320) == "4320"
  {
    assert NatToString(432) == "432";
  }

  lemma WidthText8K()
    ensures NatToString(7680) == "7680"
  {
    assert NatToString(768) == "768";
  }

  /** No entry is taller than it is wide. */
  lemma EntriesAreLandscape()
    ensures forall n :: n in Table ==> Table[n].width >= Table[n].height
  {
  }
}
