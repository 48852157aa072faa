/** Glyph layout: turns a line of text, an anchor and a glyph table into one
    instanced quad per character, packed into a float buffer. */
module Text {
  import opened Util

  /** `artery_font::Rect`: a rectangle given by its four edges. */
  datatype Rect = Rect(left: real, top: real, right: real, bottom: real)

  /** Metrics of one glyph: the pen advance, the quad extent relative to the
      pen, and the atlas rectangle holding its distance field. */
  datatype Glyph = Glyph(advanceX: real, planeBounds: Rect, atlasBounds: Rect)

  /** The glyph table, keyed by codepoint (`char as u32`). */
  type GlyphTable = map<int, Glyph>

  /** A line of text anchored at `(x, y, z)`. */
  datatype Text = Text(x: real, y: real, z: real, text: string)

  /** Why `create_buffer` panics instead of returning. */
  datatype Failure =
    | EmptyText                       // `chars.next().unwrap()` on the first character
    | MissingGlyph(codepoint: int)    // `glyphs.get(..).unwrap()` on a codepoint absent from the table
    | CharsExhausted                  // the loop runs to the byte length, past the last character

  /** The buffer contents (nine `f32`s per quad) and the instance count, or the panic. */
  datatype Outcome = Built(contents: seq<real>, count: int) | Panicked(failure: Failure)

  /** `result.len() as u32` truncates to 32 bits. */
  const U32Modulus: int := 0x1_0000_0000

  /** `Text::new`: keeps the anchor and its own copy of the string. */
  function New(text: string, pos: (real, real, real)): (t: Text)
    ensures t.x == pos.0 && t.y == pos.1 && t.z == pos.2
    ensures t.text == text
  {
    Text(pos.0, pos.1, pos.2, text)
  }

  // ---------------------------------------------------------------------------
  // Strings are UTF-8
  // ---------------------------------------------------------------------------

  /** Number of bytes UTF-8 uses for `c`. */
  function Utf8Width(c: char): (n: nat)
    ensures 1 <= n <= 4
    ensures n == 1 <==> (c as int) < 0x80
  {
    if (c as int) < 0x80 then 1
    else if (c as int) < 0x800 then 2
    else if (c as int) < 0x1_0000 then 3
    else 4
  }

  predicate IsAscii(s: string)
  {
    forall i :: 0 <= i < |s| ==> (s[i] as int) < 0x80
  }

  /** `String::len`: the length of `s` in UTF-8 bytes. It is never less than
      the number of characters, and equal to it exactly when `s` is ASCII. */
  function ByteLen(s: string): (n: nat)
    ensures n >= |s|
    ensures n == |s| <==> IsAscii(s)
  {
    if s == [] then 0
    else
      var n := Utf8Width(s[0]) + ByteLen(s[1..]);
      assert IsAscii(s) <==> (s[0] as int) < 0x80 && IsAscii(s[1..]) by {
        if (s[0] as int) < 0x80 && IsAscii(s[1..]) {
          forall i | 0 < i < |s| ensures (s[i] as int) < 0x80 {
            assert s[i] == s[1..][i - 1];
          }
        }
      }
      n
  }

  // ---------------------------------------------------------------------------
  // Glyph lookup
  // ---------------------------------------------------------------------------

  /** Every character of `s` has a glyph. */
  predicate AllPresent(s: string, table: GlyphTable)
  {
    forall i :: 0 <= i < |s| ==> (s[i] as int) in table
  }

  /** Index of the first character of `s` without a glyph, or `|s|` if there
      is none. */
  function FirstMissing(s: string, table: GlyphTable): (k: nat)
    ensures k <= |s|
    ensures forall i :: 0 <= i < k ==> (s[i] as int) in table
    ensures k < |s| ==> (s[k] as int) !in table
  {
    if s == [] then 0
    else if (s[0] as int) !in table then 0
    else
      var k := 1 + FirstMissing(s[1..], table);
      assert forall i :: 1 <= i < |s| ==> s[i] == s[1..][i - 1];
      k
  }

  // ---------------------------------------------------------------------------
  // Where each quad goes
  // ---------------------------------------------------------------------------

  /** The quad for glyph `g` between horizontal edges `left` and `right`: the
      vertical edges come from the anchor's `y` and the glyph's plane bounds,
      depth from the anchor's `z`, texture corners from the atlas bounds. */
  function GlyphQuad(t: Text, g: Glyph, left: real, right: real): Quad
  {
    Quad(
      Vec3(left, t.y + g.planeBounds.top, t.z),
      Vec2(right, t.y + g.planeBounds.bottom),
      Vec2(g.atlasBounds.left, g.atlasBounds.top),
      Vec2(g.atlasBounds.right, g.atlasBounds.bottom))
  }

  /** The first glyph sits at the anchor, spanning its plane bounds. */
  function FirstQuad(t: Text, g: Glyph): Quad
  {
    GlyphQuad(t, g, t.x + g.planeBounds.left, t.x + g.planeBounds.right)
  }

  /** A later glyph starts `advanceX` after the previous right edge `cursor`
      and is `planeBounds.right` wide from there; its `planeBounds.left` is
      not used. */
  function NextQuad(t: Text, g: Glyph, cursor: real): Quad
  {
    GlyphQuad(t, g, cursor + g.advanceX, cursor + g.advanceX + g.planeBounds.right)
  }

  /** `qs` is the layout of `s`: one quad per character, in order, the first
      placed from the anchor and each later one from its predecessor's right edge. */
  ghost predicate LaidOut(t: Text, table: GlyphTable, s: string, qs: seq<Quad>)
  {
    && |qs| == |s|
    && AllPresent(s, table)
    && (|s| > 0 ==> qs[0] == FirstQuad(t, table[s[0] as int]))
    && forall k :: 0 < k < |s| ==> qs[k] == NextQuad(t, table[s[k] as int], qs[k - 1].bottomRight.x)
  }

  // ---------------------------------------------------------------------------
  // Text::create_buffer
  // ---------------------------------------------------------------------------

  /** `Text::create_buffer`, without the GPU upload: lays out the glyphs,
      packs the quads, and returns the contents with the instance count. */
  method CreateBuffer(t: Text, table: GlyphTable) returns (r: Outcome)
    ensures r.Built? <==> |t.text| > 0 && AllPresent(t.text, table) && IsAscii(t.text)
    ensures |t.text| == 0 ==> r == Panicked(EmptyText)
    ensures 0 < |t.text| && FirstMissing(t.text, table) < |t.text| ==>
      r == Panicked(MissingGlyph(t.text[FirstMissing(t.text, table)] as int))
    ensures 0 < |t.text| && AllPresent(t.text, table) && !IsAscii(t.text) ==> r == Panicked(CharsExhausted)
    ensures r.Built? ==>
      && |r.contents| == QuadFloats * |t.text|
      && r.count == |t.text| % U32Modulus
      && LaidOut(t, table, t.text, Unpack(r.contents))
  {
    if |t.text| == 0 {
      return Panicked(EmptyText);
    }
    var c := t.text[0];
    if (c as int) !in table {
      return Panicked(MissingGlyph(c as int));
    }
    var glyph := table[c as int];
    var x1 := t.x + glyph.planeBounds.left;
    var y1 := t.y + glyph.planeBounds.top;
    var x2 := t.x + glyph.planeBounds.right;
    var y2 := t.y + glyph.planeBounds.bottom;
    var tempRight := x2;
    var result := [Quad(Vec3(x1, y1, t.z), Vec2(x2, y2),
                        Vec2(glyph.atlasBounds.left, glyph.atlasBounds.top),
                        Vec2(glyph.atlasBounds.right, glyph.atlasBounds.bottom))];

    var n := ByteLen(t.text);
    var i := 1;
    while i < n
      invariant 1 <= i <= |t.text|
      invariant LaidOut(t, table, t.text[..i], result)
      invariant tempRight == result[i - 1].bottomRight.x
    {
      if i >= |t.text| {
        assert t.text[..i] == t.text;
        return Panicked(CharsExhausted);
      }
      c := t.text[i];
      if (c as int) !in table {
        return Panicked(MissingGlyph(c as int));
      }
      glyph := table[c as int];
      x1 := tempRight + glyph.advanceX;
      y1 := t.y + glyph.planeBounds.top;
      x2 := tempRight + glyph.advanceX + glyph.planeBounds.right;
      y2 := t.y + glyph.planeBounds.bottom;
      tempRight := x2;
      result := result + [Quad(Vec3(x1, y1, t.z), Vec2(x2, y2),
                               Vec2(glyph.atlasBounds.left, glyph.atlasBounds.top),
                               Vec2(glyph.atlasBounds.right, glyph.atlasBounds.bottom))];
      i := i + 1;
    }
    assert t.text[..i] == t.text;
    UnpackPack(result);
    r := Built(Pack(result), |result| % U32Modulus);
  }

  /** The loop of `create_buffer` bounded by the number of characters instead
      of the number of bytes: every non-empty text whose characters all have
      glyphs is laid out, ASCII or not. */
  method CreateBufferByChars(t: Text, table: GlyphTable) returns (r: Outcome)
    ensures r.Built? <==> |t.text| > 0 && AllPresent(t.text, table)
    ensures |t.text| == 0 ==> r == Panicked(EmptyText)
    ensures 0 < |t.text| && FirstMissing(t.text, table) < |t.text| ==>
      r == Panicked(MissingGlyph(t.text[FirstMissing(t.text, table)] as int))
    ensures r.Built? ==>
      && |r.contents| == QuadFloats * |t.text|
      && r.count == |t.text| % U32Modulus
      && LaidOut(t, table, t.text, Unpack(r.contents))
  {
    if |t.text| == 0 {
      return Panicked(EmptyText);
    }
    var c := t.text[0];
    if (c as int) !in table {
      return Panicked(MissingGlyph(c as int));
    }
    var glyph := table[c as int];
    var tempRight := t.x + glyph.planeBounds.right;
    var result := [FirstQuad(t, glyph)];
    var i := 1;
    while i < |t.text|
      invariant 1 <= i <= |t.text|
      invariant LaidOut(t, table, t.text[..i], result)
      invariant tempRight == result[i - 1].bottomRight.x
    {
      c := t.text[i];
      if (c as int) !in table {
        return Panicked(MissingGlyph(c as int));
      }
      glyph := table[c as int];
      result := result + [NextQuad(t, glyph, tempRight)];
      tempRight := tempRight + glyph.advanceX + glyph.planeBounds.right;
      i := i + 1;
    }
    assert t.text[..i] == t.text;
    UnpackPack(result);
    r := Built(Pack(result), |result| % U32Modulus);
  }

  /** The one-character text "é" (two UTF-8 bytes) has a glyph for every
      character, yet is not ASCII, so `CreateBuffer` panics on it with the
      iterator exhausted while `CreateBufferByChars` lays it out. */
  lemma NonAsciiTextRejected(g: Glyph)
    ensures var table := map['é' as int := g];
      && ByteLen("é") == 2 > |"é"|
      && AllPresent("é", table)
      && !IsAscii("é")
  {
  }

  /** Both loops run on "é" anchored at `(x, y, z)` with a glyph for 'é': the
      byte-bounded loop panics with the iterator exhausted, the
      character-bounded one builds one quad. */
  method NonAsciiCounterexample(g: Glyph, x: real, y: real, z: real) returns (asWritten: Outcome, corrected: Outcome)
    ensures asWritten == Panicked(CharsExhausted)
    ensures corrected.Built? && corrected.count == 1 && |corrected.contents| == QuadFloats
  {
    var t := New("é", (x, y, z));
    var table := map['é' as int := g];
    NonAsciiTextRejected(g);
    asWritten := CreateBuffer(t, table);
    corrected := CreateBufferByChars(t, table);
  }

  // ---------------------------------------------------------------------------
  // Properties of the layout
  // ---------------------------------------------------------------------------

  /** The layout of a string is unique: the same text, anchor and table always
      give the same quads. */
  lemma {:induction false} LaidOutUnique(t: Text, table: GlyphTable, s: string, qs: seq<Quad>, qs': seq<Quad>)
    requires LaidOut(t, table, s, qs) && LaidOut(t, table, s, qs')
    ensures qs == qs'
  {
    forall k | 0 <= k < |s| ensures qs[k] == qs'[k] {
      LaidOutUniqueAt(t, table, s, qs, qs', k);
    }
  }

  lemma {:induction false} LaidOutUniqueAt(t: Text, table: GlyphTable, s: string, qs: seq<Quad>, qs': seq<Quad>, k: nat)
    requires LaidOut(t, table, s, qs) && LaidOut(t, table, s, qs')
    requires k < |s|
    ensures qs[k] == qs'[k]
  {
    if k > 0 {
      LaidOutUniqueAt(t, table, s, qs, qs', k - 1);
    }
  }

  /** Each quad's vertical edges, depth and texture corners depend only on the
      anchor and its own glyph, never on earlier glyphs. */
  lemma LaidOutPerGlyph(t: Text, table: GlyphTable, s: string, qs: seq<Quad>, k: nat)
    requires LaidOut(t, table, s, qs)
    requires k < |s|
    ensures var g := table[s[k] as int];
      && qs[k].topLeft.y == t.y + g.planeBounds.top
      && qs[k].bottomRight.y == t.y + g.planeBounds.bottom
      && qs[k].topLeft.z == t.z
      && qs[k].texTopLeft == Vec2(g.atlasBounds.left, g.atlasBounds.top)
      && qs[k].texBottomRight == Vec2(g.atlasBounds.right, g.atlasBounds.bottom)
  {
    if k > 0 {
      assert qs[k] == NextQuad(t, table[s[k] as int], qs[k - 1].bottomRight.x);
    }
  }

  /** How far glyph `g` moves the cursor when it is not the first. */
  function Step(g: Glyph): real
  {
    g.advanceX + g.planeBounds.right
  }

  /** Total cursor movement over the glyphs of `s`. */
  function Run(table: GlyphTable, s: string): real
    requires AllPresent(s, table)
  {
    if s == [] then 0.0
    else Run(table, s[..|s| - 1]) + Step(table[s[|s| - 1] as int])
  }

  /** Closed form of the cursor: quad `k`'s right edge is the first glyph's
      right edge plus the steps of glyphs 1 to `k`, and its left edge (for
      `k > 0`) is the previous right edge plus its own advance. */
  lemma {:induction false} CursorClosedForm(t: Text, table: GlyphTable, s: string, qs: seq<Quad>, k: nat)
    requires LaidOut(t, table, s, qs)
    requires k < |s|
    ensures qs[k].bottomRight.x == t.x + table[s[0] as int].planeBounds.right + Run(table, s[1..k + 1])
    ensures k > 0 ==> qs[k].topLeft.x == t.x + table[s[0] as int].planeBounds.right + Run(table, s[1..k]) + table[s[k] as int].advanceX
  {
    if k > 0 {
      CursorClosedForm(t, table, s, qs, k - 1);
      assert s[1..k + 1][..k - 1] == s[1..k];
    }
  }

  /** When no later glyph moves the cursor backwards, right edges never
      decrease along the line. */
  lemma {:induction false} CursorMonotone(t: Text, table: GlyphTable, s: string, qs: seq<Quad>, i: nat, j: nat)
    requires LaidOut(t, table, s, qs)
    requires forall k :: 0 < k < |s| ==> Step(table[s[k] as int]) >= 0.0
    requires i <= j < |s|
    ensures qs[i].bottomRight.x <= qs[j].bottomRight.x
    decreases j - i
  {
    if i < j {
      CursorMonotone(t, table, s, qs, i, j - 1);
    }
  }

  /** Worked example: "AB" with A = (advance 10, plane (0, 8, 8, 0), atlas
      (0, 0, 0.1, 0.1)) and B = (advance 12, plane (1, 8, 9, 0)) at the
      origin: A spans 0 to 8, B spans 8 + 12 = 20 to 8 + 12 + 9 = 29. */
  lemma ExampleAB(qs: seq<Quad>, atlasB: Rect)
    requires LaidOut(
      Text(0.0, 0.0, 0.0, "AB"),
      map['A' as int := Glyph(10.0, Rect(0.0, 8.0, 8.0, 0.0), Rect(0.0, 0.0, 0.1, 0.1)),
          'B' as int := Glyph(12.0, Rect(1.0, 8.0, 9.0, 0.0), atlasB)],
      "AB", qs)
    ensures qs[0] == Quad(Vec3(0.0, 8.0, 0.0), Vec2(8.0, 0.0), Vec2(0.0, 0.0), Vec2(0.1, 0.1))
    ensures qs[1].topLeft.x == 20.0 && qs[1].bottomRight.x == 29.0
  {
  }
}
