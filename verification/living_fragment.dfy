/** The living renderer's deterministic part: the per-frame digest, its
    parameters (6-digit chunks), the placement arithmetic of the 50 markers,
    the frame file name, and the ordered frame sequence. Pixels are not
    modelled. */
module LivingFragment {
  import opened Common
  import opened Hex
  import opened PyStr

  /** Markers drawn per frame. */
  const MarkerCount := 50
  /** Hex digits per per-frame parameter, and the 24-bit divisor. */
  const FrameChunkWidth := 6
  const FrameChunkScale := 0xff_ffff
  /** A per-frame digest has 11 parameters (ten of 6 digits, the last of 4). */
  const FrameParamCount := 11

  /** The digest input of a frame: `f"{seed_hash}_{frame}"`. */
  function FrameDigestInput(seed: string, frame: int): string
  {
    seed + "_" + IntToDecimal(frame)
  }

  /** Different frames of one seed hash different strings, so their digests
      differ unless the digest itself collides. */
  lemma FrameDigestInputsDistinct(seed: string, f1: int, f2: int)
    requires f1 != f2
    ensures FrameDigestInput(seed, f1) != FrameDigestInput(seed, f2)
  {
    var a, b := FrameDigestInput(seed, f1), FrameDigestInput(seed, f2);
    if a == b {
      assert a[|seed| + 1..] == IntToDecimal(f1);
      assert b[|seed| + 1..] == IntToDecimal(f2);
      IntToDecimalInjective(f1, f2);
    }
  }

  /** `{user_id}_{seed_hash[:12]}_frame{frame:03d}.png` */
  function FrameName(userId: string, seed: string, frame: int): string
  {
    userId + "_" + Prefix(seed, 12) + "_frame" + Format03(frame) + ".png"
  }

  /** The saved frame's path, under `fragments/`. */
  function FramePath(userId: string, seed: string, frame: int): string
  {
    "fragments/" + FrameName(userId, seed, frame)
  }

  /** Different frames of one seed and user are saved under different names,
      so no frame of a sequence overwrites another. */
  lemma FramePathsDistinct(userId: string, seed: string, f1: int, f2: int)
    requires f1 != f2
    ensures FramePath(userId, seed, f1) != FramePath(userId, seed, f2)
  {
    var head := "fragments/" + userId + "_" + Prefix(seed, 12) + "_frame";
    FramePathShape(userId, seed, f1);
    FramePathShape(userId, seed, f2);
    if FramePath(userId, seed, f1) == FramePath(userId, seed, f2) {
      MiddleDetermined(head, Format03(f1), Format03(f2), ".png");
      Format03Injective(f1, f2);
    }
  }

  lemma FramePathShape(userId: string, seed: string, f: int)
    ensures FramePath(userId, seed, f)
      == ("fragments/" + userId + "_" + Prefix(seed, 12) + "_frame") + Format03(f) + ".png"
  {
  }

  /** Two strings with the same head and the same tail around them are equal
      when the results are. */
  lemma MiddleDetermined(head: string, a: string, b: string, tail: string)
    requires head + a + tail == head + b + tail
    ensures a == b
  {
    var x, y := head + a + tail, head + b + tail;
    assert |a| == |b|;
    forall i | 0 <= i < |a| ensures a[i] == b[i] {
      assert x[|head| + i] == a[i];
      assert y[|head| + i] == b[i];
    }
  }

  /** Per-frame parameter `k`: `int(combined[6k:6k+6], 16) / 0xffffff`. */
  function FrameParam(combined: string, k: nat): real
  {
    Param(combined, FrameChunkWidth, FrameChunkScale, k)
  }

  /** Where and how large one marker is drawn: the parameter slot it reads,
      its radius, its distance from the centre before the pulse, and its
      angle in turns (the source multiplies it by 2*pi). */
  datatype Marker = Marker(paramIndex: nat, size: real, baseRadius: real, angleTurns: real)

  /** `5 + p * 10`: between 5 and 15 for a normalised parameter. */
  function MarkerSize(p: real): (s: real)
    ensures 0.0 <= p <= 1.0 ==> 5.0 <= s <= 15.0
  {
    5.0 + p * 10.0
  }

  /** `p * 300 + frame * 2`: never negative for a normalised parameter and a
      non-negative frame, and at least the frame's drift `2 * frame`. */
  function BaseRadius(p: real, frame: int): (r: real)
    ensures 0.0 <= p <= 1.0 ==> 2.0 * frame as real <= r <= 300.0 + 2.0 * frame as real
    ensures 0.0 <= p && 0 <= frame ==> r >= 0.0
  {
    p * 300.0 + (frame * 2) as real
  }

  /** The same marker lies strictly further out in every later frame: the
      outward drift across the animation. */
  lemma BaseRadiusIncreasesWithFrame(p: real, f1: int, f2: int)
    requires f1 < f2
    ensures BaseRadius(p, f1) < BaseRadius(p, f2)
  {
  }

  /** `i * 0.125 + frame * 0.01`, the marker's angle in turns. */
  function AngleTurns(i: nat, frame: int): real
  {
    i as real * 0.125 + frame as real * 0.01
  }

  /** One colour channel, `int(100 + 155 * abs(sine))`, where `sine` is the
      sine the source takes of a parameter plus a frame-dependent phase. */
  function ColorChannel(sine: real): (c: int)
    requires -1.0 <= sine <= 1.0
    ensures 100 <= c <= 255
    ensures sine == 0.0 ==> c == 100
    ensures sine == 1.0 || sine == -1.0 ==> c == 255
  {
    var magnitude := if sine < 0.0 then -sine else sine;
    (100.0 + 155.0 * magnitude).Floor
  }

  /** `numpy.sin`, which is not modelled: any function whose values lie in
      [-1, 1] may stand for it. */
  type Sine = f: real -> real | forall x :: -1.0 <= f(x) <= 1.0 witness x => 0.0

  /** A fill colour `(r, g, b)`. */
  datatype Rgb = Rgb(r: int, g: int, b: int)

  /** The colour every marker of a frame is filled with: the sines of
      parameters 0, 1 and 2 shifted by `frame * 0.05`, `frame * 0.03` and
      `frame * 0.07`, each mapped to a channel. */
  function FrameColor(combined: string, frame: int, sin: Sine): (c: Rgb)
    ensures 100 <= c.r <= 255 && 100 <= c.g <= 255 && 100 <= c.b <= 255
  {
    Rgb(ColorChannel(sin(FrameParam(combined, 0) + frame as real * 0.05)),
        ColorChannel(sin(FrameParam(combined, 1) + frame as real * 0.03)),
        ColorChannel(sin(FrameParam(combined, 2) + frame as real * 0.07)))
  }

  /** What `generate_living_fragment` produces apart from the pixels. The
      source computes the fill colour inside the marker loop, but from the
      frame and parameters 0-2 only, so every marker gets the same `fill`. */
  datatype LivingFrame = LivingFrame(filename: string, combinedHash: string, fill: Rgb, markers: seq<Marker>)

  /** `generate_living_fragment`: digest the frame's input, cut the digest into
      11 parameters, and place 50 markers, marker `i` reading parameter
      `i % 11`, all filled with the frame's colour. It cannot fail: the digest
      is always 64 hexadecimal digits. */
  method GenerateLivingFragment(seed: string, frame: int, userId: string, digest: Hasher, sin: Sine)
    returns (f: LivingFrame)
    ensures f.combinedHash == digest(FrameDigestInput(seed, frame))
    ensures f.filename == FramePath(userId, seed, frame)
    ensures f.fill == FrameColor(f.combinedHash, frame, sin)
    ensures |f.markers| == MarkerCount
    ensures forall i :: 0 <= i < MarkerCount ==>
      var p := FrameParam(f.combinedHash, i % FrameParamCount);
      && f.markers[i] == Marker(i % FrameParamCount, MarkerSize(p), BaseRadius(p, frame), AngleTurns(i, frame))
      && 0.0 <= p <= 1.0
      && 5.0 <= f.markers[i].size <= 15.0
      && (frame >= 0 ==> f.markers[i].baseRadius >= 0.0)
  {
    var combined := digest(FrameDigestInput(seed, frame));
    DigestChunking(combined);
    var parsed := ParseChunks(combined, FrameChunkWidth, FrameChunkScale);
    assert parsed.Ok?;
    var params := parsed.value;
    Pow16Widths();
    var markers: seq<Marker> := [];
    for i := 0 to MarkerCount
      invariant |markers| == i
      invariant forall j :: 0 <= j < i ==>
        var p := FrameParam(combined, j % FrameParamCount);
        && markers[j] == Marker(j % FrameParamCount, MarkerSize(p), BaseRadius(p, frame), AngleTurns(j, frame))
        && 0.0 <= p <= 1.0
    {
      var k := i % |params|;
      var p := params[k];
      ParamInUnit(combined, FrameChunkWidth, FrameChunkScale, k);
      markers := markers + [Marker(k, MarkerSize(p), BaseRadius(p, frame), AngleTurns(i, frame))];
    }
    var fill := FrameColor(combined, frame, sin);
    f := LivingFrame(FramePath(userId, seed, frame), combined, fill, markers);
  }

  /** `create_animation_frames`: renders frames 0, 1, ..., numFrames - 1 in
      that order (as user "living") and collects their file names; a count of
      zero or less gives no frames. */
  method CreateAnimationFrames(seed: string, numFrames: int, digest: Hasher, sin: Sine) returns (frames: seq<string>)
    ensures |frames| == Max(numFrames, 0)
    ensures forall k :: 0 <= k < |frames| ==> frames[k] == FramePath("living", seed, k)
  {
    frames := [];
    var frame := 0;
    while frame < numFrames
      invariant 0 <= frame <= Max(numFrames, 0)
      invariant |frames| == frame
      invariant forall k :: 0 <= k < frame ==> frames[k] == FramePath("living", seed, k)
    {
      var rendered := GenerateLivingFragment(seed, frame, "living", digest, sin);
      frames := frames + [rendered.filename];
      frame := frame + 1;
    }
  }
}
