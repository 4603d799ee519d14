/**
 * Binding the captured HTML texture to a model's screen: find the mesh's
 * material slot whose name is "material.003" (ignoring surrounding white
 * space and letter case), project UVs for that slot's draw group, size the
 * capture to the screen's aspect, and swap only that slot for a clone that
 * shows the capture through its emissive channel.
 */
module ScreenBinding {
  import opened Wrappers
  import UVProjection
  import Capture

  /** `SCREEN_MAT_NAME`: the screen slot's name, compared case-insensitively. */
  const ScreenMaterialName: string := "material.003"

  /** `SCREEN_MAT_NAME.toLowerCase()`. */
  const ScreenKey: string := "material.003"

  // ---------------------------------------------------------------------
  // String.prototype.trim and toLowerCase
  // ---------------------------------------------------------------------

  /**
   * The characters `trim` removes: ECMAScript WhiteSpace (tab, vertical
   * tab, form feed, space, no-break space, byte order mark and the Zs
   * space separators) and LineTerminator (LF, CR, LS, PS).
   */
  predicate IsWhitespace(c: char)
  {
    || c == '\t' || c == '\n' || c == '\U{000B}' || c == '\U{000C}' || c == '\r' || c == ' '
    || c == '\U{00A0}' || c == '\U{1680}' || ('\U{2000}' <= c <= '\U{200A}')
    || c == '\U{2028}' || c == '\U{2029}' || c == '\U{202F}' || c == '\U{205F}'
    || c == '\U{3000}' || c == '\U{FEFF}'
  }

  predicate AllWhitespace(s: string)
  {
    forall i :: 0 <= i < |s| ==> IsWhitespace(s[i])
  }

  /** Leading white space removed: the longest suffix that does not start with white space. */
  function TrimStart(s: string): (r: string)
    ensures |r| <= |s| && r == s[|s| - |r|..]
    ensures r == [] || !IsWhitespace(r[0])
    ensures forall i :: 0 <= i < |s| - |r| ==> IsWhitespace(s[i])
  {
    if |s| > 0 && IsWhitespace(s[0]) then TrimStart(s[1..]) else s
  }

  /** Trailing white space removed: the longest prefix that does not end with white space. */
  function TrimEnd(s: string): (r: string)
    ensures |r| <= |s| && r == s[..|r|]
    ensures r == [] || !IsWhitespace(r[|r| - 1])
    ensures forall i :: |r| <= i < |s| ==> IsWhitespace(s[i])
  {
    if |s| > 0 && IsWhitespace(s[|s| - 1]) then TrimEnd(s[..|s| - 1]) else s
  }

  /** `String.prototype.trim`. */
  function Trim(s: string): string
  {
    TrimStart(TrimEnd(s))
  }

  /**
   * `trim` leaves a string that neither starts nor ends with white space,
   * and leaves nothing exactly when there was only white space.
   */
  lemma TrimEnds(s: string)
    ensures Trim(s) == [] || (!IsWhitespace(Trim(s)[0]) && !IsWhitespace(Trim(s)[|Trim(s)| - 1]))
    ensures Trim(s) == [] <==> AllWhitespace(s)
  {
    var e := TrimEnd(s);
    var r := TrimStart(e);
    if r == [] {
      assert e == [];
    } else {
      assert r[|r| - 1] == e[|e| - 1];
      assert s[|e| - 1] == e[|e| - 1];
    }
  }

  /** `toLowerCase` on one character: A-Z map to a-z, everything else is kept. */
  function LowerChar(c: char): (d: char)
    ensures 'A' <= c <= 'Z' ==> 'a' <= d <= 'z' && d as int == c as int + 32
    ensures !('A' <= c <= 'Z') ==> d == c
  {
    if 'A' <= c <= 'Z' then (c as int + 32) as char else c
  }

  function ToLower(s: string): (r: string)
    ensures |r| == |s|
  {
    seq(|s|, i requires 0 <= i < |s| => LowerChar(s[i]))
  }

  /** The test `findIndex` applies to a slot's name. */
  predicate IsScreenName(name: string)
  {
    ToLower(Trim(name)) == ScreenKey
  }

  // ---------------------------------------------------------------------
  // Properties of the name test
  // ---------------------------------------------------------------------

  /** The key is the lower-cased constant. */
  lemma ScreenKeyIsLowered()
    ensures ToLower(ScreenMaterialName) == ScreenKey
  {
    assert ToLower(ScreenMaterialName)[..] == ScreenKey;
  }

  lemma {:induction false} TrimStartAllWhitespace(p: string, y: string)
    requires AllWhitespace(p)
    ensures TrimStart(p + y) == TrimStart(y)
    decreases |p|
  {
    if |p| > 0 {
      assert (p + y)[1..] == p[1..] + y;
      TrimStartAllWhitespace(p[1..], y);
    } else {
      assert p + y == y;
    }
  }

  lemma {:induction false} TrimEndAllWhitespace(x: string, q: string)
    requires AllWhitespace(q)
    ensures TrimEnd(x + q) == TrimEnd(x)
    decreases |q|
  {
    if |q| > 0 {
      assert (x + q)[..|x + q| - 1] == x + q[..|q| - 1];
      TrimEndAllWhitespace(x, q[..|q| - 1]);
    } else {
      assert x + q == x;
    }
  }

  /** White space ahead of a string survives TrimEnd only when something else follows it. */
  lemma {:induction false} TrimEndPrefix(p: string, s: string)
    ensures AllWhitespace(s) ==> TrimEnd(p + s) == TrimEnd(p)
    ensures !AllWhitespace(s) ==> TrimEnd(p + s) == p + TrimEnd(s)
    decreases |s|
  {
    if |s| == 0 {
      assert p + s == p;
    } else {
      var s' := s[..|s| - 1];
      assert (p + s)[..|p + s| - 1] == p + s';
      TrimEndPrefix(p, s');
      if !IsWhitespace(s[|s| - 1]) {
        assert !AllWhitespace(s);
      } else {
        assert AllWhitespace(s) <==> AllWhitespace(s') by {
          if AllWhitespace(s') {
            forall i | 0 <= i < |s| ensures IsWhitespace(s[i]) {
              if i < |s| - 1 { assert s[i] == s'[i]; }
            }
          }
        }
      }
    }
  }

  /** `trim` ignores white-space padding on either side. */
  lemma TrimIgnoresPadding(p: string, s: string, q: string)
    requires AllWhitespace(p) && AllWhitespace(q)
    ensures Trim(p + s + q) == Trim(s)
  {
    TrimEndAllWhitespace(p + s, q);
    TrimEndPrefix(p, s);
    if AllWhitespace(s) {
      assert TrimEnd(p) == [];
      assert TrimEnd(s) == [];
    } else {
      TrimStartAllWhitespace(p, TrimEnd(s));
    }
  }

  /** The slot test ignores white space around the name. */
  lemma MatchIgnoresPadding(p: string, name: string, q: string)
    requires AllWhitespace(p) && AllWhitespace(q)
    ensures IsScreenName(p + name + q) <==> IsScreenName(name)
  {
    TrimIgnoresPadding(p, name, q);
  }

  lemma LowerKeepsWhitespace(c: char)
    ensures IsWhitespace(LowerChar(c)) <==> IsWhitespace(c)
  {
  }

  lemma {:induction false} TrimStartLower(s: string)
    ensures TrimStart(ToLower(s)) == ToLower(TrimStart(s))
    decreases |s|
  {
    if |s| > 0 {
      LowerKeepsWhitespace(s[0]);
      assert ToLower(s)[1..] == ToLower(s[1..]);
      TrimStartLower(s[1..]);
    }
  }

  lemma {:induction false} TrimEndLower(s: string)
    ensures TrimEnd(ToLower(s)) == ToLower(TrimEnd(s))
    decreases |s|
  {
    if |s| > 0 {
      LowerKeepsWhitespace(s[|s| - 1]);
      assert ToLower(s)[..|s| - 1] == ToLower(s[..|s| - 1]);
      TrimEndLower(s[..|s| - 1]);
    }
  }

  lemma LowerIdempotent(s: string)
    ensures ToLower(ToLower(s)) == ToLower(s)
  {
  }

  /** Names that agree up to letter case are both screen names or neither. */
  lemma MatchIgnoresCase(a: string, b: string)
    requires ToLower(a) == ToLower(b)
    ensures IsScreenName(a) <==> IsScreenName(b)
  {
    LowerOfTrim(a);
    LowerOfTrim(b);
  }

  /** Lower-casing the trimmed name is lower-casing the whole name, then trimming. */
  lemma LowerOfTrim(s: string)
    ensures ToLower(Trim(s)) == Trim(ToLower(s))
  {
    TrimEndLower(s);
    TrimStartLower(TrimEnd(s));
  }

  /** A name with nothing to trim is its own trimmed form. */
  lemma TrimUnpadded(s: string)
    requires |s| > 0 && !IsWhitespace(s[0]) && !IsWhitespace(s[|s| - 1])
    ensures Trim(s) == s
  {
  }

  /** The constant itself, in upper case, and padded with white space all name the screen slot. */
  lemma ScreenNameExamples()
    ensures IsScreenName("material.003")
    ensures IsScreenName("MATERIAL.003")
    ensures IsScreenName("  " + "Material.003" + "\n")
  {
    LowerCaseExample();
    UpperCaseExample();
    PaddedExample();
  }

  lemma LowerCaseExample()
    ensures IsScreenName("material.003")
  {
    TrimUnpadded("material.003");
    assert ToLower("material.003") == ScreenKey;
  }

  lemma UpperCaseExample()
    ensures IsScreenName("MATERIAL.003")
  {
    TrimUnpadded("MATERIAL.003");
    assert ToLower("MATERIAL.003") == ScreenKey;
  }

  lemma PaddedExample()
    ensures IsScreenName("  " + "Material.003" + "\n")
  {
    var name := "Material.003";
    TrimUnpadded(name);
    assert ToLower(name) == ScreenKey;
    MatchIgnoresPadding("  ", name, "\n");
  }

  /** Names that are not the screen slot's. */
  lemma OtherNameExamples()
    ensures !IsScreenName("material.004")
    ensures !IsScreenName("material.0030")
    ensures !IsScreenName("")
  {
    TrimUnpadded("material.004");
    assert ToLower("material.004")[11] == '4';
    TrimUnpadded("material.0030");
  }

  // ---------------------------------------------------------------------
  // Materials and the slot search
  // ---------------------------------------------------------------------

  datatype Side = FrontSide | BackSide | DoubleSide

  /**
   * The material properties the binding reads or sets. `emissiveIsScreen`
   * says that the emissive map is the capture texture.
   */
  datatype Material = Material(
    name: string,
    color: int,
    hasMap: bool,
    emissive: int,
    emissiveIsScreen: bool,
    emissiveIntensity: real,
    toneMapped: bool,
    side: Side)

  /** `(m?.name || '')`: an empty slot has the empty name. */
  function NameOf(m: Option<Material>): string
  {
    match m
    case None => ""
    case Some(mat) => mat.name
  }

  /** The scan of `findIndex` from position k on: the first element p accepts, or -1. */
  function FindIndexFrom<T>(xs: seq<T>, p: T -> bool, k: nat): (idx: int)
    requires k <= |xs|
    ensures idx == -1 || k <= idx < |xs|
    ensures idx == -1 <==> forall j :: k <= j < |xs| ==> !p(xs[j])
    ensures idx >= 0 ==> p(xs[idx]) && forall j :: k <= j < idx ==> !p(xs[j])
    decreases |xs| - k
  {
    if k == |xs| then -1
    else if p(xs[k]) then k
    else FindIndexFrom(xs, p, k + 1)
  }

  /** `Array.prototype.findIndex`. */
  function FindIndex<T>(xs: seq<T>, p: T -> bool): (idx: int)
    ensures -1 <= idx < |xs|
    ensures idx == -1 <==> forall j :: 0 <= j < |xs| ==> !p(xs[j])
    ensures idx >= 0 ==> p(xs[idx]) && forall j :: 0 <= j < idx ==> !p(xs[j])
  {
    FindIndexFrom(xs, p, 0)
  }

  /** The callback the binding hands to `findIndex`. */
  predicate IsScreenSlot(m: Option<Material>)
  {
    IsScreenName(NameOf(m))
  }

  /** The screen slot of a material list: the first whose name is the screen's, or -1. */
  function FindScreenSlot(mats: seq<Option<Material>>): (idx: int)
    ensures -1 <= idx < |mats|
    ensures idx == -1 <==> forall j :: 0 <= j < |mats| ==> !IsScreenSlot(mats[j])
    ensures idx >= 0 ==> IsScreenSlot(mats[idx]) && forall j :: 0 <= j < idx ==> !IsScreenSlot(mats[j])
  {
    FindIndex(mats, IsScreenSlot)
  }

  /** The slot found always holds a material: the empty name is no screen name. */
  lemma ScreenSlotHoldsMaterial(mats: seq<Option<Material>>)
    requires FindScreenSlot(mats) >= 0
    ensures mats[FindScreenSlot(mats)].Some?
  {
    OtherNameExamples();
  }

  /** The material the screen shows the capture through. */
  predicate ShowsCapture(m: Material)
  {
    && m.color == 0x000000 && !m.hasMap
    && m.emissive == 0xFFFFFF && m.emissiveIsScreen && m.emissiveIntensity == 1.6
    && m.toneMapped && m.side == DoubleSide
  }

  /** The clone that replaces the screen slot: the base's name, driven by the emissive map. */
  function ScreenMaterial(base: Material): (m: Material)
    ensures ShowsCapture(m)
    ensures m.name == base.name
    ensures ShowsCapture(base) ==> m == base
  {
    base.(color := 0x000000, hasMap := false, emissive := 0xFFFFFF, emissiveIsScreen := true,
          emissiveIntensity := 1.6, toneMapped := true, side := DoubleSide)
  }

  /** The slot list after the swap: only the screen slot changes. */
  function SwapScreenSlot(mats: seq<Option<Material>>, idx: int): (r: seq<Option<Material>>)
    requires 0 <= idx < |mats| && mats[idx].Some?
    ensures |r| == |mats|
    ensures r[idx].Some? && ShowsCapture(r[idx].value) && r[idx].value.name == mats[idx].value.name
    ensures forall j :: 0 <= j < |mats| && j != idx ==> r[j] == mats[j]
  {
    mats[idx := Some(ScreenMaterial(mats[idx].value))]
  }

  /**
   * Binding twice is binding once: the swapped slot keeps its name, so a
   * second search finds the same slot, and swapping it again changes nothing.
   */
  lemma SwapIdempotent(mats: seq<Option<Material>>)
    requires FindScreenSlot(mats) >= 0
    ensures var idx := FindScreenSlot(mats);
      && mats[idx].Some?
      && FindScreenSlot(SwapScreenSlot(mats, idx)) == idx
      && SwapScreenSlot(SwapScreenSlot(mats, idx), idx) == SwapScreenSlot(mats, idx)
  {
    ScreenSlotHoldsMaterial(mats);
    var idx := FindScreenSlot(mats);
    var once := SwapScreenSlot(mats, idx);
    assert forall j :: 0 <= j <= idx ==> NameOf(once[j]) == NameOf(mats[j]);
    FirstMatchUnchanged(mats, once, idx);
    SwapTwice(mats, idx);
  }

  /** The clone already shows the capture, so swapping the same slot again changes nothing. */
  lemma SwapTwice(mats: seq<Option<Material>>, idx: int)
    requires 0 <= idx < |mats| && mats[idx].Some?
    ensures SwapScreenSlot(SwapScreenSlot(mats, idx), idx) == SwapScreenSlot(mats, idx)
  {
    var once := SwapScreenSlot(mats, idx);
    assert ScreenMaterial(once[idx].value) == once[idx].value;
  }

  /** Two slot lists that agree on the names up to a first match have that first match. */
  lemma FirstMatchUnchanged(a: seq<Option<Material>>, b: seq<Option<Material>>, idx: int)
    requires 0 <= idx < |a| == |b|
    requires FindScreenSlot(a) == idx
    requires forall j :: 0 <= j <= idx ==> NameOf(b[j]) == NameOf(a[j])
    ensures FindScreenSlot(b) == idx
  {
    assert IsScreenSlot(b[idx]);
  }

  // ---------------------------------------------------------------------
  // The mesh and the binding
  // ---------------------------------------------------------------------

  /** A mesh of the loaded model: its material slots, geometry and shadow flags. */
  class Mesh {
    /** `o.material`, as a slot list (one slot when it is a single material). */
    var materials: seq<Option<Material>>
    /** `Array.isArray(o.material)`. */
    const isArray: bool
    const geometry: UVProjection.BufferGeometry
    var castShadow: bool
    var receiveShadow: bool

    ghost predicate Valid()
      reads this, geometry
    {
      (!isArray ==> |materials| == 1) && geometry.Valid()
    }

    /** A mesh as the loader hands it over, shadow flags as the load handler left them. */
    constructor (materials: seq<Option<Material>>, isArray: bool, geometry: UVProjection.BufferGeometry,
                 castShadow: bool, receiveShadow: bool)
      requires !isArray ==> |materials| == 1
      requires geometry.Valid()
      ensures Valid()
      ensures this.materials == materials && this.isArray == isArray && this.geometry == geometry
      ensures this.castShadow == castShadow && this.receiveShadow == receiveShadow
    {
      this.materials, this.isArray, this.geometry := materials, isArray, geometry;
      this.castShadow, this.receiveShadow := castShadow, receiveShadow;
    }

    /** Step 1 of the binding: UVs for the screen slot's draw group, and its aspect. */
    method ProjectScreenUVs(slot: int) returns (aspect: real)
      requires Valid()
      modifies geometry, geometry.uv
      ensures Valid()
      ensures aspect > 0.0
      ensures geometry.position.None? ==> aspect == 1.0
      ensures geometry.position.None? ==> geometry.uv == old(geometry.uv) && (geometry.uv != null ==> geometry.uv[..] == old(geometry.uv[..]))
      ensures geometry.position.Some? ==> geometry.uv != null
      ensures geometry.position.Some? ==> (old(geometry.uv) != null ==> geometry.uv == old(geometry.uv)) && (old(geometry.uv) == null ==> fresh(geometry.uv))
      ensures geometry.position.Some? ==>
        var pr := UVProjection.Project(geometry.position.value, geometry.index, geometry.groups, slot);
        && aspect == pr.aspect
        && geometry.uv[..] == UVProjection.ProjectedUV(old(geometry.PriorUV()), geometry.position.value, pr.walk.used, pr.walk.bounds, pr.u, pr.v)
    {
      aspect := geometry.SetUVsForMaterialGroupAndGetAspect(slot);
    }

    /**
     * Steps 2 to 4 of the binding, once the aspect is known: the capture
     * sized to it, only the slot swapped for its capture-showing clone, and
     * no shadows. The geometry is not touched.
     */
    method SwapInScreenMaterial(session: Capture.CaptureSession, slot: int, aspect: real)
      requires Valid() && session.Valid()
      requires 0 <= slot < |materials| && materials[slot].Some?
      modifies this, session
      ensures Valid() && session.Valid()
      ensures session.State() == Capture.ResizedState(old(session.State()), aspect)
      ensures materials == SwapScreenSlot(old(materials), slot)
      ensures !castShadow && !receiveShadow
      ensures geometry.uv == old(geometry.uv) && (geometry.uv != null ==> geometry.uv[..] == old(geometry.uv[..]))
    {
      session.ResizeToAspect(aspect);
      materials := SwapScreenSlot(materials, slot);
      castShadow, receiveShadow := false, false;
    }

    /**
     * Steps 1 to 4 of the binding, for a slot that holds a material: UVs
     * for the slot's group, the capture sized to their aspect, only that
     * slot swapped for its capture-showing clone, and no shadows.
     */
    method BindScreenSlot(session: Capture.CaptureSession, slot: int) returns (aspect: real)
      requires Valid() && session.Valid()
      requires 0 <= slot < |materials| && materials[slot].Some?
      modifies this, geometry, geometry.uv, session
      ensures Valid() && session.Valid()
      ensures materials == SwapScreenSlot(old(materials), slot)
      ensures !castShadow && !receiveShadow
      ensures aspect > 0.0
      ensures session.State() == Capture.ResizedState(old(session.State()), aspect)
      ensures geometry.position.None? ==> aspect == 1.0
      ensures geometry.position.None? ==> geometry.uv == old(geometry.uv) && (geometry.uv != null ==> geometry.uv[..] == old(geometry.uv[..]))
      ensures geometry.position.Some? ==> geometry.uv != null
      ensures geometry.position.Some? ==> (old(geometry.uv) != null ==> geometry.uv == old(geometry.uv)) && (old(geometry.uv) == null ==> fresh(geometry.uv))
      ensures geometry.position.Some? ==>
        var pr := UVProjection.Project(geometry.position.value, geometry.index, geometry.groups, slot);
        && aspect == pr.aspect
        && geometry.uv[..] == UVProjection.ProjectedUV(old(geometry.PriorUV()), geometry.position.value, pr.walk.used, pr.walk.bounds, pr.u, pr.v)
    {
      aspect := ProjectScreenUVs(slot);
      SwapInScreenMaterial(session, slot, aspect);
    }

    /**
     * The per-mesh step of `applyHTMLTextureToScreen`: without a screen
     * slot nothing changes; otherwise the screen slot is bound.
     */
    method ApplyHTMLTexture(session: Capture.CaptureSession) returns (idx: int, aspect: real)
      requires Valid() && session.Valid()
      modifies this, geometry, geometry.uv, session
      ensures Valid() && session.Valid()
      ensures idx == FindScreenSlot(old(materials))
      ensures idx == -1 ==>
        && materials == old(materials) && castShadow == old(castShadow) && receiveShadow == old(receiveShadow)
        && unchanged(session) && unchanged(geometry)
        && (geometry.uv != null ==> unchanged(geometry.uv))
      ensures idx >= 0 ==>
        && old(materials)[idx].Some?
        && materials == SwapScreenSlot(old(materials), idx)
        && !castShadow && !receiveShadow
        && session.State() == Capture.ResizedState(old(session.State()), aspect)
        && (geometry.position.None? ==> aspect == 1.0)
        && (geometry.position.None? ==> geometry.uv == old(geometry.uv) && (geometry.uv != null ==> geometry.uv[..] == old(geometry.uv[..])))
        && (geometry.position.Some? ==> geometry.uv != null)
        && (geometry.position.Some? ==> (old(geometry.uv) != null ==> geometry.uv == old(geometry.uv)) && (old(geometry.uv) == null ==> fresh(geometry.uv)))
        && (geometry.position.Some? ==>
              var pr := UVProjection.Project(geometry.position.value, geometry.index, geometry.groups, idx);
              && aspect == pr.aspect
              && geometry.uv[..] == UVProjection.ProjectedUV(old(geometry.PriorUV()), geometry.position.value, pr.walk.used, pr.walk.bounds, pr.u, pr.v))
    {
      idx := FindScreenSlot(materials);
      if idx == -1 {
        return -1, 1.0;
      }
      ScreenSlotHoldsMaterial(materials);
      aspect := BindScreenSlot(session, idx);
    }
  }
}
