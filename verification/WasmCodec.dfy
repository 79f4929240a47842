/** LEB128 and the section framing of a WebAssembly module (Core Specification, sections 5.2.2, 5.5.2 and 5.5.3). */
module WasmCodec {
  import opened Outcomes
  import opened Numbers

  const HEADER: seq<Byte> := [0x00, 0x61, 0x73, 0x6D, 0x01, 0x00, 0x00, 0x00]

  // ----- Unsigned LEB128

  function EncodeUleb(n: nat): (r: seq<Byte>)
    ensures |r| > 0
  {
    if n < 128 then [n] else [n % 128 + 128] + EncodeUleb(n / 128)
  }

  /** Value and end index; running off the end is an error. */
  function DecodeUleb(data: seq<Byte>, i: nat): (r: Option<(nat, nat)>)
    ensures r.Some? ==> i < r.value.1 <= |data|
    decreases |data| - i
  {
    if i >= |data| then None
    else if data[i] < 128 then Some((data[i], i + 1))
    else
      var tail := DecodeUleb(data, i + 1);
      if tail.None? then None else Some((data[i] - 128 + 128 * tail.value.0, tail.value.1))
  }

  /** Decoding at the end of any prefix inverts encoding, whatever follows. */
  lemma {:induction false} UlebRoundTrip(prefix: seq<Byte>, n: nat, suffix: seq<Byte>)
    ensures DecodeUleb(prefix + EncodeUleb(n) + suffix, |prefix|) == Some((n, |prefix| + |EncodeUleb(n)|))
    decreases n
  {
    var data := prefix + EncodeUleb(n) + suffix;
    if n >= 128 {
      var longer := prefix + [n % 128 + 128];
      UlebRoundTrip(longer, n / 128, suffix);
      assert data == longer + EncodeUleb(n / 128) + suffix;
    }
  }

  function Shifted(r: Option<(nat, nat)>, result: nat, scale: nat): Option<(nat, nat)> {
    if r.None? then None else Some((result + scale * r.value.0, r.value.1))
  }

  lemma ShiftOnce(value: nat, result: nat, scale: nat, low: nat)
    requires low < 128 && result < scale
    ensures result + scale * (low + 128 * value) == result + low * scale + scale * 128 * value
    ensures result + low * scale < scale * 128
  {
    assert low * scale <= 127 * scale;
    assert scale * (low + 128 * value) == scale * low + scale * (128 * value);
    assert scale * (128 * value) == scale * 128 * value;
  }

  /** Taking one byte into the accumulator. */
  lemma ReadStep(data: seq<Byte>, k: nat, result: nat, scale: nat)
    requires k < |data| && result < scale
    ensures var more := result + data[k] % 128 * scale;
      && more < scale * 128
      && Shifted(DecodeUleb(data, k), result, scale)
         == if data[k] < 128 then Some((more, k + 1)) else Shifted(DecodeUleb(data, k + 1), more, scale * 128)
  {
    var tail := DecodeUleb(data, k + 1);
    ShiftOnce(if tail.Some? then tail.value.0 else 0, result, scale, data[k] % 128);
    if data[k] < 128 {
      assert scale * data[k] == data[k] * scale;
    }
  }

  lemma NothingShifted(data: seq<Byte>, i: nat)
    ensures Shifted(DecodeUleb(data, i), 0, 1) == DecodeUleb(data, i)
  {
  }

  lemma ReadEnd(data: seq<Byte>, k: nat, result: nat, scale: nat)
    requires k >= |data|
    ensures Shifted(DecodeUleb(data, k), result, scale) == None
  {
  }

  /** The accumulating loop; the bits already read are below the scale, so the bitwise-or is an addition. */
  method ReadUleb(data: seq<Byte>, i: nat) returns (r: Option<(nat, nat)>)
    ensures r == DecodeUleb(data, i)
  {
    hide DecodeUleb, Shifted;
    var result: nat, scale: nat, k: nat := 0, 1, i;
    NothingShifted(data, i);
    while true
      invariant 0 <= result < scale
      invariant DecodeUleb(data, i) == Shifted(DecodeUleb(data, k), result, scale)
      decreases |data| - k
    {
      if k >= |data| {
        ReadEnd(data, k, result, scale);
        return None;
      }
      var b: int := data[k];
      ReadStep(data, k, result, scale);
      k := k + 1;
      result := result + b % 128 * scale;
      if b < 128 {
        return Some((result, k));
      }
      scale := scale * 128;
    }
  }

  lemma Associates(a: seq<Byte>, b: seq<Byte>, c: seq<Byte>)
    ensures a + (b + c) == a + b + c
  {
  }

  lemma WriteStep(out: seq<Byte>, rest: nat)
    ensures rest / 128 != 0 ==> out + EncodeUleb(rest) == out + [rest % 128 + 128] + EncodeUleb(rest / 128)
    ensures rest / 128 == 0 ==> out + EncodeUleb(rest) == out + [rest % 128]
  {
    if rest >= 128 {
      Associates(out, [rest % 128 + 128], EncodeUleb(rest / 128));
    }
  }

  method WriteUleb(n: nat) returns (out: seq<Byte>)
    ensures out == EncodeUleb(n)
  {
    hide EncodeUleb;
    out := [];
    var rest := n;
    while true
      invariant out + EncodeUleb(rest) == EncodeUleb(n)
      decreases rest
    {
      WriteStep(out, rest);
      var b := rest % 128;
      rest := rest / 128;
      if rest != 0 {
        out := out + [b + 128];
      } else {
        return out + [b];
      }
    }
  }

  // ----- Sections

  datatype Section = Section(id: Byte, name: Option<seq<Byte>>, body: seq<Byte>)

  /** A slice cut short at the end of the data. */
  function Slice(data: seq<Byte>, from: nat, to: nat): seq<Byte> {
    if from >= |data| || to <= from then [] else data[from..if to < |data| then to else |data|]
  }

  /** The name that opens a custom section's body; `utf8` says which byte strings decode. */
  function CustomName(body: seq<Byte>, utf8: seq<Byte> -> bool): Option<seq<Byte>> {
    var length := DecodeUleb(body, 0);
    if length.None? then None
    else
      var name := Slice(body, length.value.1, length.value.1 + length.value.0);
      if utf8(name) then Some(name) else None
  }

  /** Sections from index `i` on; a last body may be cut short, and an unreadable size or name is an error. */
  function SplitFrom(wasm: seq<Byte>, i: nat, utf8: seq<Byte> -> bool): Option<seq<Section>>
    decreases |wasm| - i
  {
    if i >= |wasm| then Some([])
    else
      var size := DecodeUleb(wasm, i + 1);
      if size.None? then None
      else
        var (length, start) := size.value;
        var body := Slice(wasm, start, start + length);
        var name := if wasm[i] == 0 then CustomName(body, utf8) else None;
        if wasm[i] == 0 && name.None? then None
        else
          var rest := SplitFrom(wasm, start + length, utf8);
          if rest.None? then None else Some([Section(wasm[i], name, body)] + rest.value)
  }

  function Split(wasm: seq<Byte>, utf8: seq<Byte> -> bool): Option<seq<Section>> {
    if Slice(wasm, 0, 8) == HEADER then SplitFrom(wasm, 8, utf8) else None
  }

  function Frame(s: Section): seq<Byte> {
    [s.id] + EncodeUleb(|s.body|) + s.body
  }

  function JoinAll(sections: seq<Section>): seq<Byte> {
    if sections == [] then [] else Frame(sections[0]) + JoinAll(sections[1..])
  }

  function Join(sections: seq<Section>): seq<Byte> {
    HEADER + JoinAll(sections)
  }

  function Prepended(sections: seq<Section>, rest: Option<seq<Section>>): Option<seq<Section>> {
    if rest.None? then None else Some(sections + rest.value)
  }

  lemma PrependNothing(rest: Option<seq<Section>>)
    ensures Prepended([], rest) == rest
  {
    if rest.Some? {
      assert [] + rest.value == rest.value;
    }
  }

  /** Taking one section off the front. */
  lemma SplitStep(wasm: seq<Byte>, i: nat, utf8: seq<Byte> -> bool, sections: seq<Section>)
    requires i < |wasm|
    ensures var whole, size := Prepended(sections, SplitFrom(wasm, i, utf8)), DecodeUleb(wasm, i + 1);
      if size.None? then whole == None
      else
        var (length, start) := size.value;
        var body := Slice(wasm, start, start + length);
        var name := if wasm[i] == 0 then CustomName(body, utf8) else None;
        if wasm[i] == 0 && name.None? then whole == None
        else whole == Prepended(sections + [Section(wasm[i], name, body)], SplitFrom(wasm, start + length, utf8))
  {
    hide Slice, CustomName, DecodeUleb;
    var size := DecodeUleb(wasm, i + 1);
    if size.Some? {
      var (length, start) := size.value;
      var body := Slice(wasm, start, start + length);
      var name := if wasm[i] == 0 then CustomName(body, utf8) else None;
      var rest := SplitFrom(wasm, start + length, utf8);
      if rest.Some? {
        assert sections + ([Section(wasm[i], name, body)] + rest.value)
          == sections + [Section(wasm[i], name, body)] + rest.value;
      }
    }
  }

  lemma SplitEnd(wasm: seq<Byte>, i: nat, utf8: seq<Byte> -> bool, sections: seq<Section>)
    requires i >= |wasm|
    ensures Prepended(sections, SplitFrom(wasm, i, utf8)) == Some(sections)
  {
    assert sections + [] == sections;
  }

  method SplitSections(wasm: seq<Byte>, utf8: seq<Byte> -> bool) returns (r: Option<seq<Section>>)
    ensures r == Split(wasm, utf8)
  {
    hide SplitFrom, Prepended, Slice, CustomName, DecodeUleb;
    if Slice(wasm, 0, 8) != HEADER {
      return None;
    }
    var sections: seq<Section> := [];
    var i: nat := 8;
    PrependNothing(SplitFrom(wasm, 8, utf8));
    while i < |wasm|
      invariant Split(wasm, utf8) == Prepended(sections, SplitFrom(wasm, i, utf8))
      decreases |wasm| - i
    {
      SplitStep(wasm, i, utf8, sections);
      var sid := wasm[i];
      var size := ReadUleb(wasm, i + 1);
      if size.None? {
        return None;
      }
      var (length, start) := size.value;
      var body := Slice(wasm, start, start + length);
      var name := None;
      if sid == 0 {
        name := CustomName(body, utf8);
        if name.None? {
          return None;
        }
      }
      sections := sections + [Section(sid, name, body)];
      i := start + length;
    }
    SplitEnd(wasm, i, utf8, sections);
    r := Some(sections);
  }

  method JoinSections(sections: seq<Section>) returns (out: seq<Byte>)
    ensures out == Join(sections)
  {
    out := HEADER;
    for k := 0 to |sections|
      invariant out + JoinAll(sections[k..]) == Join(sections)
    {
      var size := WriteUleb(|sections[k].body|);
      out := out + [sections[k].id];
      out := out + size;
      out := out + sections[k].body;
      assert sections[k..][1..] == sections[k + 1..];
    }
  }

  // ----- Round trips

  /** A section the splitter could have produced. */
  predicate WellFormed(s: Section, utf8: seq<Byte> -> bool) {
    if s.id == 0 then s.name.Some? && s.name == CustomName(s.body, utf8) else s.name.None?
  }

  /** A framed section reads back, wherever it stands. */
  lemma FrameReads(prefix: seq<Byte>, s: Section, suffix: seq<Byte>)
    ensures var wasm, start := prefix + Frame(s) + suffix, |prefix| + 1 + |EncodeUleb(|s.body|)|;
      && |prefix| < |wasm| && wasm[|prefix|] == s.id
      && DecodeUleb(wasm, |prefix| + 1) == Some((|s.body|, start))
      && Slice(wasm, start, start + |s.body|) == s.body
      && start + |s.body| == |prefix + Frame(s)|
  {
    var tagged := prefix + [s.id];
    var wasm := prefix + Frame(s) + suffix;
    assert wasm == tagged + EncodeUleb(|s.body|) + (s.body + suffix);
    UlebRoundTrip(tagged, |s.body|, s.body + suffix);
  }

  lemma SplitFrame(prefix: seq<Byte>, s: Section, suffix: seq<Byte>, utf8: seq<Byte> -> bool)
    requires WellFormed(s, utf8)
    ensures var wasm := prefix + Frame(s) + suffix;
      SplitFrom(wasm, |prefix|, utf8) == Prepended([s], SplitFrom(wasm, |prefix + Frame(s)|, utf8))
  {
    FrameReads(prefix, s, suffix);
    hide Slice, Frame, CustomName, DecodeUleb, EncodeUleb;
  }

  lemma {:induction false} SplitJoinFrom(prefix: seq<Byte>, sections: seq<Section>, utf8: seq<Byte> -> bool)
    requires forall s | s in sections :: WellFormed(s, utf8)
    ensures SplitFrom(prefix + JoinAll(sections), |prefix|, utf8) == Some(sections)
    decreases |sections|
  {
    hide SplitFrom, WellFormed, Frame;
    if sections != [] {
      var s, rest := sections[0], sections[1..];
      SplitFrame(prefix, s, JoinAll(rest), utf8);
      SplitJoinFrom(prefix + Frame(s), rest, utf8);
      assert prefix + JoinAll(sections) == prefix + Frame(s) + JoinAll(rest);
      assert sections == [s] + rest;
    } else {
      assert prefix + JoinAll(sections) == prefix;
      SplitNothing(prefix, utf8);
    }
  }

  lemma SplitNothing(wasm: seq<Byte>, utf8: seq<Byte> -> bool)
    ensures SplitFrom(wasm, |wasm|, utf8) == Some([])
  {
  }

  lemma {:induction false} SplitGivesWellFormed(wasm: seq<Byte>, i: nat, utf8: seq<Byte> -> bool)
    requires SplitFrom(wasm, i, utf8).Some?
    ensures forall s | s in SplitFrom(wasm, i, utf8).value :: WellFormed(s, utf8)
    decreases |wasm| - i
  {
    if i < |wasm| {
      var (length, start) := DecodeUleb(wasm, i + 1).value;
      SplitGivesWellFormed(wasm, start + length, utf8);
    }
  }

  /** Splitting inverts joining exactly for well-formed sections. */
  lemma SplitInvertsJoin(sections: seq<Section>, utf8: seq<Byte> -> bool)
    ensures Split(Join(sections), utf8) == Some(sections) <==> forall s | s in sections :: WellFormed(s, utf8)
  {
    assert Slice(Join(sections), 0, 8) == HEADER;
    if forall s | s in sections :: WellFormed(s, utf8) {
      SplitJoinFrom(HEADER, sections, utf8);
    } else if Split(Join(sections), utf8).Some? {
      SplitGivesWellFormed(Join(sections), 8, utf8);
    }
  }

  /** Joining what was split, even from a module cut short or with padded sizes, splits to the same sections. */
  lemma JoinKeepsSections(wasm: seq<Byte>, utf8: seq<Byte> -> bool)
    requires Split(wasm, utf8).Some?
    ensures Split(Join(Split(wasm, utf8).value), utf8) == Split(wasm, utf8)
  {
    SplitGivesWellFormed(wasm, 8, utf8);
    SplitInvertsJoin(Split(wasm, utf8).value, utf8);
  }

  // ----- The optimizer's section filter

  const SPEC: seq<Byte> := [99, 111, 110, 116, 114, 97, 99, 116, 115, 112, 101, 99, 118, 48]  // contractspecv0
  const META: seq<Byte> := [99, 111, 110, 116, 114, 97, 99, 116, 109, 101, 116, 97, 118, 48]  // contractmetav0

  predicate Dropped(s: Section, stripSpec: bool) {
    stripSpec && s.id == 0 && (s.name == Some(SPEC) || s.name == Some(META))
  }

  /** The payload the optimizer takes for the contract spec: all after a minimal length and the name. */
  function SpecPayload(s: Section): seq<Byte> {
    Slice(s.body, |EncodeUleb(|SPEC|) + SPEC|, |s.body|)
  }

  /** `stripDocs` is the external re-encoding of the spec with its doc strings blanked. */
  function Rewritten(s: Section, stripDocs: seq<Byte> -> seq<Byte>): Section {
    if s.id == 0 && s.name == Some(SPEC) then s.(body := EncodeUleb(|SPEC|) + SPEC + stripDocs(SpecPayload(s))) else s
  }

  function Optimized(sections: seq<Section>, stripSpec: bool, stripDocs: seq<Byte> -> seq<Byte>): seq<Section> {
    if sections == [] then []
    else
      var k := |sections| - 1;
      Optimized(sections[..k], stripSpec, stripDocs)
        + if Dropped(sections[k], stripSpec) then [] else [Rewritten(sections[k], stripDocs)]
  }

  method Optimize(wasm: seq<Byte>, stripSpec: bool, stripDocs: seq<Byte> -> seq<Byte>, utf8: seq<Byte> -> bool)
    returns (out: Option<seq<Byte>>)
    ensures var split := Split(wasm, utf8);
      out == if split.None? then None else Some(Join(Optimized(split.value, stripSpec, stripDocs)))
  {
    var split := SplitSections(wasm, utf8);
    if split.None? {
      return None;
    }
    var kept: seq<Section> := [];
    for k := 0 to |split.value|
      invariant kept == Optimized(split.value[..k], stripSpec, stripDocs)
    {
      var s := split.value[k];
      assert split.value[..k + 1][..k] == split.value[..k];
      if s.id == 0 && (s.name == Some(SPEC) || s.name == Some(META)) && stripSpec {
        continue;
      }
      if s.id == 0 && s.name == Some(SPEC) {
        s := s.(body := EncodeUleb(|SPEC|) + SPEC + stripDocs(SpecPayload(s)));
      }
      kept := kept + [s];
    }
    assert split.value[..|split.value|] == split.value;
    var joined := JoinSections(kept);
    out := Some(joined);
  }

  lemma RewrittenWellFormed(s: Section, stripDocs: seq<Byte> -> seq<Byte>, utf8: seq<Byte> -> bool)
    requires WellFormed(s, utf8)
    ensures WellFormed(Rewritten(s, stripDocs), utf8)
  {
    if s.id == 0 && s.name == Some(SPEC) {
      var payload := stripDocs(SpecPayload(s));
      var body := EncodeUleb(|SPEC|) + SPEC + payload;
      UlebRoundTrip([], |SPEC|, SPEC + payload);
      assert [] + EncodeUleb(|SPEC|) + (SPEC + payload) == body;
      assert Slice(body, |EncodeUleb(|SPEC|)|, |EncodeUleb(|SPEC|)| + |SPEC|) == SPEC;
    }
  }

  lemma {:induction false} OptimizedWellFormed(sections: seq<Section>, stripSpec: bool,
                                               stripDocs: seq<Byte> -> seq<Byte>, utf8: seq<Byte> -> bool)
    requires forall s | s in sections :: WellFormed(s, utf8)
    ensures forall s | s in Optimized(sections, stripSpec, stripDocs) :: WellFormed(s, utf8)
  {
    if sections != [] {
      var k := |sections| - 1;
      OptimizedWellFormed(sections[..k], stripSpec, stripDocs, utf8);
      RewrittenWellFormed(sections[k], stripDocs, utf8);
    }
  }

  /** The optimized module splits into exactly the sections kept, in order; every one but the spec is byte-identical. */
  lemma OptimizedSplits(wasm: seq<Byte>, stripSpec: bool, stripDocs: seq<Byte> -> seq<Byte>, utf8: seq<Byte> -> bool)
    requires Split(wasm, utf8).Some?
    ensures var kept := Optimized(Split(wasm, utf8).value, stripSpec, stripDocs);
      Split(Join(kept), utf8) == Some(kept)
  {
    SplitGivesWellFormed(wasm, 8, utf8);
    OptimizedWellFormed(Split(wasm, utf8).value, stripSpec, stripDocs, utf8);
    SplitInvertsJoin(Optimized(Split(wasm, utf8).value, stripSpec, stripDocs), utf8);
  }

  /** The sections that are neither the contract's spec nor its metadata. */
  function Code(sections: seq<Section>): seq<Section> {
    if sections == [] then []
    else
      var k := |sections| - 1;
      Code(sections[..k]) + if Described(sections[k]) then [] else [sections[k]]
  }

  predicate Described(s: Section) {
    s.id == 0 && (s.name == Some(SPEC) || s.name == Some(META))
  }

  /** Optimizing neither drops, changes nor reorders any section but the spec and the metadata. */
  lemma {:induction false} CodeIsKept(sections: seq<Section>, stripSpec: bool, stripDocs: seq<Byte> -> seq<Byte>)
    ensures Code(Optimized(sections, stripSpec, stripDocs)) == Code(sections)
  {
    if sections != [] {
      var k := |sections| - 1;
      CodeIsKept(sections[..k], stripSpec, stripDocs);
      var kept, s := Optimized(sections[..k], stripSpec, stripDocs), Rewritten(sections[k], stripDocs);
      if !Dropped(sections[k], stripSpec) {
        assert (kept + [s])[..|kept|] == kept;
      } else {
        assert kept + [] == kept;
      }
    }
  }

  /** Stripping leaves no spec and no metadata. */
  lemma {:induction false} StrippedHasNoSpec(sections: seq<Section>, stripDocs: seq<Byte> -> seq<Byte>)
    ensures forall s | s in Optimized(sections, true, stripDocs) :: !Described(s)
    ensures Optimized(sections, true, stripDocs) == Code(sections)
  {
    if sections != [] {
      StrippedHasNoSpec(sections[..|sections| - 1], stripDocs);
    }
  }

  /**
   Otherwise every section stays in its place: all but the spec unchanged, and
   the spec with its documentation stripped from the payload that was taken.
   */
  lemma {:induction false} DocsAreStripped(sections: seq<Section>, stripDocs: seq<Byte> -> seq<Byte>)
    ensures var out := Optimized(sections, false, stripDocs);
      && |out| == |sections|
      && forall k | 0 <= k < |sections| ::
           if sections[k].id == 0 && sections[k].name == Some(SPEC) then
             && out[k].id == 0 && out[k].name == Some(SPEC)
             && DecodeUleb(out[k].body, 0) == Some((|SPEC|, 1))
             && Slice(out[k].body, 1, 1 + |SPEC|) == SPEC
             && TruePayload(out[k].body) == stripDocs(SpecPayload(sections[k]))
           else out[k] == sections[k]
  {
    if sections != [] {
      var n := |sections| - 1;
      DocsAreStripped(sections[..n], stripDocs);
      if sections[n].id == 0 && sections[n].name == Some(SPEC) {
        RewrittenPayload(sections[n], stripDocs);
      }
    }
  }

  lemma RewrittenPayload(s: Section, stripDocs: seq<Byte> -> seq<Byte>)
    requires s.id == 0 && s.name == Some(SPEC)
    ensures var body := Rewritten(s, stripDocs).body;
      && DecodeUleb(body, 0) == Some((|SPEC|, 1)) && Slice(body, 1, 1 + |SPEC|) == SPEC
      && TruePayload(body) == stripDocs(SpecPayload(s))
  {
    var payload := stripDocs(SpecPayload(s));
    assert EncodeUleb(|SPEC|) == [14];
    var body := [14 as Byte] + SPEC + payload;
    assert Rewritten(s, stripDocs).body == body;
    assert DecodeUleb(body, 0) == Some((14, 1));
    assert body[1..15] == SPEC && body[15..] == payload;
  }

  /** What really follows the name in a custom section's body. */
  function TruePayload(body: seq<Byte>): seq<Byte>
    requires DecodeUleb(body, 0).Some?
  {
    var (length, start) := DecodeUleb(body, 0).value;
    Slice(body, start + length, |body|)
  }

  /** The optimizer takes the right payload exactly when the name's length is one byte: a padded length shifts it. */
  lemma SpecPayloadExact(s: Section, utf8: seq<Byte> -> bool)
    requires s.id == 0 && s.name == Some(SPEC) && WellFormed(s, utf8)
    ensures SpecPayload(s) == TruePayload(s.body) <==> s.body[0] < 128
  {
    var (length, start) := DecodeUleb(s.body, 0).value;
    assert |Slice(s.body, start, start + length)| == 14;
    assert EncodeUleb(|SPEC|) == [14];
    if s.body[0] >= 128 {
      assert start >= 2;
      assert |SpecPayload(s)| > |TruePayload(s.body)|;
    }
  }

  /** A spec section whose name length is padded to two bytes: well formed, and its payload is taken one byte early. */
  lemma PaddedNameShiftsPayload(utf8: seq<Byte> -> bool) returns (s: Section)
    requires utf8(SPEC)
    ensures s.id == 0 && s.name == Some(SPEC) && WellFormed(s, utf8)
    ensures SpecPayload(s) == [SPEC[13], 7] && TruePayload(s.body) == [7]
  {
    var body: seq<Byte> := [142, 0] + SPEC + [7];
    s := Section(0, Some(SPEC), body);
    assert DecodeUleb(body, 1) == Some((0, 2));
    assert DecodeUleb(body, 0) == Some((14, 2));
    assert Slice(body, 2, 16) == SPEC;
    assert EncodeUleb(|SPEC|) == [14];
  }
}
