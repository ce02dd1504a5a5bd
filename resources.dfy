/** The preset-to-sound store of BrushSfx/resources.py: a list of text lines
    whose first line is a version header and whose other lines each tie a
    brush preset to its sound settings, as `name;;sfx_id;;1|0;;eraser_sfx_id;;volume`.
    Lines are looked up, replaced, appended and removed by preset name. */
module Resources {
  import opened Wrappers

  /** `str.isspace()` for one character, which is what `str.strip()` drops. */
  predicate IsSpace(c: char)
  {
    || c == ' ' || '\t' <= c <= '\r' || '\U{1C}' <= c <= '\U{1F}'
    || c == '\U{85}' || c == '\U{A0}' || c == '\U{1680}' || '\U{2000}' <= c <= '\U{200A}'
    || c == '\U{2028}' || c == '\U{2029}' || c == '\U{202F}' || c == '\U{205F}' || c == '\U{3000}'
  }

  function StripStart(s: string): (r: string)
    ensures |r| <= |s|
    ensures |r| > 0 ==> !IsSpace(r[0])
  {
    if |s| > 0 && IsSpace(s[0]) then StripStart(s[1..]) else s
  }

  function StripEnd(s: string): (r: string)
    ensures |r| <= |s|
    ensures |r| > 0 ==> !IsSpace(r[|r| - 1]) && r[0] == s[0]
  {
    if |s| > 0 && IsSpace(s[|s| - 1]) then StripEnd(s[..|s| - 1]) else s
  }

  /** `str.strip()`. */
  function Strip(s: string): (r: string)
    ensures |r| <= |s|
    ensures |r| > 0 ==> !IsSpace(r[0]) && !IsSpace(r[|r| - 1])
  {
    StripEnd(StripStart(s))
  }

  /** A string with nothing to strip is its own strip, so stripping twice is
      stripping once. */
  lemma StripIdempotent(s: string)
    ensures (|s| == 0 || (!IsSpace(s[0]) && !IsSpace(s[|s| - 1]))) ==> Strip(s) == s
    ensures Strip(Strip(s)) == Strip(s)
  {
    var t := Strip(s);
    assert |t| == 0 || (!IsSpace(t[0]) && !IsSpace(t[|t| - 1]));
  }

  predicate SeparatorAt(s: string, k: int)
  {
    0 <= k && k + 1 < |s| && s[k] == ';' && s[k + 1] == ';'
  }

  /** `str.find(";;", from)`: the first place from `from` on where the
      separator starts. */
  function FindSeparatorFrom(s: string, from: nat): (r: Option<nat>)
    ensures r.Some? ==> from <= r.value && SeparatorAt(s, r.value)
    ensures r.Some? ==> forall j :: from <= j < r.value ==> !SeparatorAt(s, j)
    ensures r.None? ==> forall j :: from <= j < |s| ==> !SeparatorAt(s, j)
    decreases |s| - from
  {
    if from + 1 >= |s| then None
    else if SeparatorAt(s, from) then Some(from)
    else FindSeparatorFrom(s, from + 1)
  }

  /** `str.find(";;")`. */
  function FindSeparator(s: string): (r: Option<nat>)
    ensures r.Some? ==> SeparatorAt(s, r.value) && forall j :: 0 <= j < r.value ==> !SeparatorAt(s, j)
    ensures r.None? ==> forall j :: 0 <= j < |s| ==> !SeparatorAt(s, j)
  {
    FindSeparatorFrom(s, 0)
  }

  /** `line.split(";;")`: the pieces between the separators, found from the
      left without overlap; always at least one piece. */
  function Split(s: string): (r: seq<string>)
    ensures |r| >= 1
    decreases |s|
  {
    match FindSeparator(s)
    case None => [s]
    case Some(k) => [s[..k]] + Split(s[k + 2..])
  }

  /** The fields joined by `;;`, as `save_sfx` writes a record. */
  function Join(fields: seq<string>): string
    requires |fields| >= 1
  {
    if |fields| == 1 then fields[0] else fields[0] + ";;" + Join(fields[1..])
  }

  predicate NoSemicolon(s: string)
  {
    forall i :: 0 <= i < |s| ==> s[i] != ';'
  }

  /** Splitting undoes joining when no field holds a `;` (a field ending in
      `;` would move the separator one place to the left). */
  lemma {:induction false} SplitJoin(fields: seq<string>)
    requires |fields| >= 1
    requires forall i :: 0 <= i < |fields| ==> NoSemicolon(fields[i])
    ensures Split(Join(fields)) == fields
    decreases |fields|
  {
    var first := fields[0];
    if |fields| == 1 {
      assert FindSeparator(first).None? by {
        FindSeparatorNone(first);
      }
    } else {
      var rest := Join(fields[1..]);
      var s := first + ";;" + rest;
      assert s == Join(fields);
      FindSeparatorAfter(first, rest);
      assert s[..|first|] == first;
      assert s[|first| + 2..] == rest;
      SplitJoin(fields[1..]);
      assert fields == [first] + fields[1..];
    }
  }

  lemma FindSeparatorNone(s: string)
    requires NoSemicolon(s)
    ensures FindSeparator(s).None?
  {
  }

  lemma FindSeparatorAfter(first: string, rest: string)
    requires NoSemicolon(first)
    ensures FindSeparator(first + ";;" + rest) == Some(|first|)
  {
    var s := first + ";;" + rest;
    assert SeparatorAt(s, |first|);
    assert forall j :: 0 <= j < |first| ==> s[j] == first[j];
  }

  /** `bsfxConfig`: the sounds and the volume tied to one brush preset. */
  datatype BsfxConfig = BsfxConfig(sfxId: string, useEraser: bool, eraserSfxId: string, volume: real)

  /** `str(float(v))` and `float(s)`, which belong to Python's float
      formatting; `parse` is `None` where `float` raises `ValueError`. */
  datatype FloatCodec = FloatCodec(format: real -> string, parse: string -> Option<real>)

  /** The line `save_sfx` writes for a preset. */
  function Serialise(presetName: string, config: BsfxConfig, codec: FloatCodec): string
  {
    Join([Strip(presetName), config.sfxId, if config.useEraser then "1" else "0",
          config.eraserSfxId, codec.format(config.volume)])
  }

  /** A line belongs to the preset when its first field, stripped, is the
      stripped preset name. */
  predicate Matches(line: string, presetName: string)
  {
    Strip(Split(line)[0]) == Strip(presetName)
  }

  /** The index of the first line from `from` on that belongs to the preset. */
  function FirstMatchFrom(data: seq<string>, presetName: string, from: nat): (r: Option<nat>)
    ensures r.Some? ==> from <= r.value < |data| && Matches(data[r.value], presetName)
    ensures r.Some? ==> forall j :: from <= j < r.value ==> !Matches(data[j], presetName)
    ensures r.None? ==> forall j :: from <= j < |data| ==> !Matches(data[j], presetName)
    decreases |data| - from
  {
    if from >= |data| then None
    else if Matches(data[from], presetName) then Some(from)
    else FirstMatchFrom(data, presetName, from + 1)
  }

  /** The scan of `data[1:]` that `save_sfx`, `get_sfx` and `remove_sfx`
      share; the header, line 0, is never looked at. */
  function FirstMatch(data: seq<string>, presetName: string): (r: Option<nat>)
    ensures r.Some? ==> 1 <= r.value < |data| && Matches(data[r.value], presetName)
    ensures r.Some? ==> forall j :: 1 <= j < r.value ==> !Matches(data[j], presetName)
    ensures r.None? ==> forall j :: 1 <= j < |data| ==> !Matches(data[j], presetName)
  {
    FirstMatchFrom(data, presetName, 1)
  }

  /** `self.data` after `save_sfx`: the first line of the preset replaced,
      or the new line appended. */
  function Saved(data: seq<string>, presetName: string, config: BsfxConfig, codec: FloatCodec): seq<string>
  {
    var line := Serialise(presetName, config, codec);
    match FirstMatch(data, presetName)
    case Some(k) => data[k := line]
    case None => data + [line]
  }

  /** `self.data` after `remove_sfx`: the first line of the preset dropped. */
  function Removed(data: seq<string>, presetName: string): seq<string>
  {
    match FirstMatch(data, presetName)
    case Some(k) => data[..k] + data[k + 1..]
    case None => data
  }

  /** What `get_sfx` gives back: `None` as `NotFound`, the `IndexError` of a
      matching line with fewer than five fields as `Malformed`, or the
      record as `{"name": ..., "sfx_config": ...}`. */
  datatype Lookup = NotFound | Malformed | Found(name: string, config: BsfxConfig)

  /** A matching line's fields read back: the third field, stripped, turns
      the eraser on unless it is `0`; an unreadable volume becomes 1.0. */
  function Decode(fields: seq<string>, codec: FloatCodec): Lookup
  {
    if |fields| < 5 then Malformed
    else
      var volume := match codec.parse(Strip(fields[4])) case None => 1.0 case Some(v) => v;
      Found(fields[0], BsfxConfig(fields[1], Strip(fields[2]) != "0", fields[3], volume))
  }

  /** `get_sfx(preset_name)` over `data`. */
  function FindSfx(data: seq<string>, presetName: string, codec: FloatCodec): Lookup
  {
    match FirstMatch(data, presetName)
    case None => NotFound
    case Some(k) => Decode(Split(data[k]), codec)
  }

  /** The header line is never matched, replaced or removed, and saving
      replaces one line or adds exactly one. */
  lemma HeaderKept(data: seq<string>, presetName: string, config: BsfxConfig, codec: FloatCodec)
    requires |data| >= 1
    ensures Saved(data, presetName, config, codec)[0] == data[0]
    ensures Removed(data, presetName)[0] == data[0]
    ensures FirstMatch(data, presetName).None? <==> |Saved(data, presetName, config, codec)| == |data| + 1
    ensures FirstMatch(data, presetName).Some? <==> |Saved(data, presetName, config, codec)| == |data|
  {
  }

  /** Saving only touches the preset's line: every other line stays where
      it was. */
  lemma SaveTouchesOneLine(data: seq<string>, presetName: string, config: BsfxConfig, codec: FloatCodec, j: nat)
    requires j < |data| && (FirstMatch(data, presetName).Some? ==> j != FirstMatch(data, presetName).value)
    ensures Saved(data, presetName, config, codec)[j] == data[j]
  {
  }

  /** Removing drops at most the preset's first line and keeps the others
      in order. */
  lemma RemoveKeepsOrder(data: seq<string>, presetName: string)
    ensures FirstMatch(data, presetName).None? ==> Removed(data, presetName) == data
    ensures FirstMatch(data, presetName).Some? ==>
              var k := FirstMatch(data, presetName).value;
              |Removed(data, presetName)| == |data| - 1
              && (forall j :: 0 <= j < k ==> Removed(data, presetName)[j] == data[j])
              && (forall j :: k < j < |data| ==> Removed(data, presetName)[j - 1] == data[j])
  {
    match FirstMatch(data, presetName)
    case None =>
    case Some(k) =>
      var r := data[..k] + data[k + 1..];
      assert Removed(data, presetName) == r;
      assert forall j :: k < j < |data| ==> r[j - 1] == data[j];
  }

  /** A preset that is not found (`None` in the source) has no line after
      the header. */
  lemma NotFoundMeansAbsent(data: seq<string>, presetName: string, codec: FloatCodec)
    ensures FindSfx(data, presetName, codec) == NotFound <==>
              forall j :: 1 <= j < |data| ==> !Matches(data[j], presetName)
  {
    if FirstMatch(data, presetName).Some? {
      var k := FirstMatch(data, presetName).value;
      assert Matches(data[k], presetName);
    }
  }

  /** How a matching line is read back: fewer than five fields raise, the
      eraser is on exactly when the stripped third field is not `0`, and a
      volume that does not parse falls back to 1.0; the name and the two
      sound ids are taken unstripped. */
  lemma DecodeFallbacks(fields: seq<string>, codec: FloatCodec)
    ensures Decode(fields, codec) == Malformed <==> |fields| < 5
    ensures |fields| >= 5 ==>
              var d := Decode(fields, codec);
              d.Found? && d.name == fields[0] && d.config.sfxId == fields[1] && d.config.eraserSfxId == fields[3]
              && (d.config.useEraser <==> Strip(fields[2]) != "0")
              && (codec.parse(Strip(fields[4])).None? ==> d.config.volume == 1.0)
              && (codec.parse(Strip(fields[4])).Some? ==> d.config.volume == codec.parse(Strip(fields[4])).value)
  {
  }

  /** The fields whose text survives a save and a lookup unchanged: none of
      them contains `;`, and the volume's text parses back to the volume. */
  predicate RoundTrips(presetName: string, config: BsfxConfig, codec: FloatCodec)
  {
    && NoSemicolon(Strip(presetName))
    && NoSemicolon(config.sfxId)
    && NoSemicolon(config.eraserSfxId)
    && NoSemicolon(codec.format(config.volume))
    && codec.parse(Strip(codec.format(config.volume))) == Some(config.volume)
  }

  /** The fields of a saved line are the preset name and the record. */
  lemma SerialiseFields(presetName: string, config: BsfxConfig, codec: FloatCodec)
    requires RoundTrips(presetName, config, codec)
    ensures Split(Serialise(presetName, config, codec))
         == [Strip(presetName), config.sfxId, if config.useEraser then "1" else "0",
             config.eraserSfxId, codec.format(config.volume)]
    ensures Matches(Serialise(presetName, config, codec), presetName)
    ensures Decode(Split(Serialise(presetName, config, codec)), codec) == Found(Strip(presetName), config)
  {
    var flag := if config.useEraser then "1" else "0";
    var fields := [Strip(presetName), config.sfxId, flag, config.eraserSfxId, codec.format(config.volume)];
    assert NoSemicolon(flag);
    SplitJoin(fields);
    StripIdempotent(presetName);
    StripIdempotent(flag);
  }

  /** Round trip: once a preset is saved into a store that has its header
      line, looking it up returns the stripped name and the same record. */
  lemma SaveThenGet(data: seq<string>, presetName: string, config: BsfxConfig, codec: FloatCodec)
    requires |data| >= 1 && RoundTrips(presetName, config, codec)
    ensures FindSfx(Saved(data, presetName, config, codec), presetName, codec) == Found(Strip(presetName), config)
  {
    var line := Serialise(presetName, config, codec);
    var after := Saved(data, presetName, config, codec);
    SerialiseFields(presetName, config, codec);
    var k := if FirstMatch(data, presetName).Some? then FirstMatch(data, presetName).value else |data|;
    assert after[k] == line;
    forall j | 1 <= j < k ensures !Matches(after[j], presetName) {
      assert after[j] == data[j];
    }
    FirstMatchIs(after, presetName, k);
  }

  /** The first match is the first index that matches. */
  lemma FirstMatchIs(data: seq<string>, presetName: string, k: nat)
    requires 1 <= k < |data| && Matches(data[k], presetName)
    requires forall j :: 1 <= j < k ==> !Matches(data[j], presetName)
    ensures FirstMatch(data, presetName) == Some(k)
  {
    var r := FirstMatch(data, presetName);
    assert r.Some?;
    assert !(r.value < k);
  }

  /** Saving the same preset twice leaves the store as saving it once: one
      line for the preset, every other line as it was. */
  lemma SaveIdempotent(data: seq<string>, presetName: string, config: BsfxConfig, codec: FloatCodec)
    requires |data| >= 1 && RoundTrips(presetName, config, codec)
    ensures Saved(Saved(data, presetName, config, codec), presetName, config, codec)
         == Saved(data, presetName, config, codec)
  {
    var line := Serialise(presetName, config, codec);
    var after := Saved(data, presetName, config, codec);
    SerialiseFields(presetName, config, codec);
    var k := if FirstMatch(data, presetName).Some? then FirstMatch(data, presetName).value else |data|;
    assert after[k] == line;
    forall j | 1 <= j < k ensures !Matches(after[j], presetName) {
      assert after[j] == data[j];
    }
    FirstMatchIs(after, presetName, k);
    assert after[k := line] == after;
  }

  /** Without its header line the store loses the first save: the new line
      lands at index 0, where lookups never look. */
  lemma HeaderlessStoreLosesSave(presetName: string, config: BsfxConfig, codec: FloatCodec)
    ensures Saved([], presetName, config, codec) == [Serialise(presetName, config, codec)]
    ensures FindSfx(Saved([], presetName, config, codec), presetName, codec) == NotFound
  {
  }

  /** `BrushSfxResourceRepository`, holding the store's lines; reading and
      writing the file is left to the caller. */
  class Repository {
    var data: seq<string>

    /** The repository over the (already stripped) lines of its file. */
    constructor(lines: seq<string>)
      ensures data == lines
    {
      data := lines;
    }

    /** Whether line `i` belongs to the preset: `line.split(";;")[0].strip()
        == preset_name.strip()`. */
    method LineMatches(i: nat, presetName: string) returns (b: bool)
      requires i < |data|
      ensures b == Matches(data[i], presetName)
    {
      var config := Split(data[i]);
      b := Strip(config[0]) == Strip(presetName);
    }

    /** The counter loop of `save_sfx` and `remove_sfx`: `-1` when no line
        after the header belongs to the preset. */
    method FindConfigIndex(presetName: string) returns (configIndex: int)
      ensures FirstMatch(data, presetName).None? ==> configIndex == -1
      ensures FirstMatch(data, presetName).Some? ==> configIndex == FirstMatch(data, presetName).value
    {
      var i := 0;
      configIndex := -1;
      while i + 1 < |data|
        invariant 0 <= i && (i <= |data| - 1 || i == 0)
        invariant forall j :: 1 <= j <= i ==> !Matches(data[j], presetName)
        decreases |data| - i
      {
        i := i + 1;
        var found := LineMatches(i, presetName);
        if found {
          configIndex := i;
          FirstMatchIs(data, presetName, i);
          return;
        }
      }
    }

    /** `save_sfx(preset_name, sfx_config)`. */
    method SaveSfx(presetName: string, config: BsfxConfig, codec: FloatCodec)
      modifies this
      ensures data == Saved(old(data), presetName, config, codec)
    {
      var newConfig := Serialise(presetName, config, codec);
      var configIndex := FindConfigIndex(presetName);
      if configIndex != -1 {
        data := data[configIndex := newConfig];
      } else {
        data := data + [newConfig];
      }
    }

    /** `get_sfx(preset_name)`. */
    method GetSfx(presetName: string, codec: FloatCodec) returns (r: Lookup)
      ensures r == FindSfx(data, presetName, codec)
    {
      var configIndex := FindConfigIndex(presetName);
      if configIndex == -1 {
        return NotFound;
      }
      var fields := Split(data[configIndex]);
      if |fields| < 5 {
        return Malformed;
      }
      var volumeString := Strip(fields[4]);
      var volume := 1.0;
      match codec.parse(volumeString) {
        case Some(v) => volume := v;
        case None =>
      }
      r := Found(fields[0], BsfxConfig(fields[1], Strip(fields[2]) != "0", fields[3], volume));
    }

    /** `remove_sfx(preset_name)`. */
    method RemoveSfx(presetName: string)
      modifies this
      ensures data == Removed(old(data), presetName)
    {
      var configIndex := FindConfigIndex(presetName);
      if configIndex != -1 {
        data := data[..configIndex] + data[configIndex + 1..];
      }
    }
  }
}
