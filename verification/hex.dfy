/** Hexadecimal strings: the digits `int(s, 16)` accepts, their value, the
    fixed-width chunking both renderers apply to a seed, and the normalised
    parameter a chunk turns into. */
module Hex {
  import opened Common

  predicate IsHexDigit(c: char) {
    '0' <= c <= '9' || 'a' <= c <= 'f' || 'A' <= c <= 'F'
  }

  predicate IsHex(s: string) {
    forall i :: 0 <= i < |s| ==> IsHexDigit(s[i])
  }

  /** The value of one hexadecimal digit, upper or lower case. A character that
      is not a digit counts 0; callers check `IsHex` first, as `int` does. */
  function DigitValue(c: char): (v: nat)
    ensures v < 16
    ensures IsHexDigit(c) && c != '0' ==> v > 0
  {
    if '0' <= c <= '9' then c as int - '0' as int
    else if 'a' <= c <= 'f' then c as int - 'a' as int + 10
    else if 'A' <= c <= 'F' then c as int - 'A' as int + 10
    else 0
  }

  function Pow16(n: nat): (p: nat)
    ensures p >= 1
  {
    if n == 0 then 1 else 16 * Pow16(n - 1)
  }

  /** The unsigned integer a string of hexadecimal digits denotes, most
      significant digit first; it always fits in `|s|` digits. */
  function HexValue(s: string): (v: nat)
    ensures v < Pow16(|s|)
  {
    if s == [] then 0 else HexValue(s[..|s| - 1]) * 16 + DigitValue(s[|s| - 1])
  }

  lemma {:induction false} Pow16Monotone(a: nat, b: nat)
    requires a <= b
    ensures Pow16(a) <= Pow16(b)
  {
    if a < b {
      Pow16Monotone(a, b - 1);
    }
  }

  /** A string of at most `w` digits denotes at most the largest `w`-digit value. */
  lemma HexValueAtMost(s: string, w: nat)
    requires |s| <= w
    ensures HexValue(s) <= Pow16(w) - 1
  {
    Pow16Monotone(|s|, w);
  }

  /** `len(range(0, n, w))`: how many chunks a string of length `n` is cut into. */
  function NumChunks(n: nat, w: nat): nat
    requires w > 0
  {
    (n + w - 1) / w
  }

  /** `s[k*w : k*w + w]` with Python's clamping of slice bounds. */
  function Chunk(s: string, w: nat, k: nat): (c: string)
    requires w > 0
    ensures |c| <= w
  {
    s[Min(k * w, |s|)..Min(k * w + w, |s|)]
  }

  /** The chunk count is the unique `q` with `q*w` reaching `n` for the first time. */
  lemma ChunkCountUnique(n: nat, w: nat, q: nat)
    requires w > 0
    requires n <= q * w < n + w
    ensures NumChunks(n, w) == q
  {
    var q', r' := (n + w - 1) / w, (n + w - 1) % w;
    assert n + w - 1 == q' * w + r' && 0 <= r' < w;
    MultipleSign(q' - q, w);
    assert (q' - q) * w == q' * w - q * w;
  }

  /** A non-zero multiple of `w` is at least `w` away from zero. */
  lemma MultipleSign(k: int, w: nat)
    ensures k >= 1 ==> k * w >= w
    ensures k <= -1 ==> k * w + w <= 0
  {
    if k >= 1 {
      assert k * w == (k - 1) * w + w;
    } else if k <= -1 {
      assert k * w == (k + 1) * w - w;
    }
  }

  /** Chunk `k` exists (starts inside the string) exactly when `k < NumChunks`. */
  lemma ChunkIndexBound(n: nat, w: nat, k: nat)
    requires w > 0
    ensures k < NumChunks(n, w) <==> k * w < n
  {
    var q := NumChunks(n, w);
    var r := (n + w - 1) % w;
    assert n + w - 1 == q * w + r && 0 <= r < w;
    if k < q {
      assert k * w <= (q - 1) * w;
    } else {
      assert k * w >= q * w;
    }
  }

  /** Every existing chunk is non-empty, and together the chunks cover the string. */
  lemma ChunkShape(s: string, w: nat, k: nat)
    requires w > 0 && k < NumChunks(|s|, w)
    ensures 0 < |Chunk(s, w, k)| <= w
    ensures Chunk(s, w, k) == s[k * w..Min(k * w + w, |s|)]
  {
    ChunkIndexBound(|s|, w, k);
  }

  /** Chunk `k` read as an unsigned integer and divided by `scale`: the
      normalised parameter `int(chunk, 16) / scale`. */
  function Param(s: string, w: nat, scale: nat, k: nat): real
    requires w > 0 && scale > 0
  {
    HexValue(Chunk(s, w, k)) as real / scale as real
  }

  /** Dividing by the largest `w`-digit value normalises every chunk into [0, 1]. */
  lemma ParamInUnit(s: string, w: nat, scale: nat, k: nat)
    requires w > 0 && scale == Pow16(w) - 1 && scale > 0
    ensures 0.0 <= Param(s, w, scale, k) <= 1.0
  {
    HexValueAtMost(Chunk(s, w, k), w);
    RatioInUnit(HexValue(Chunk(s, w, k)), scale);
  }

  lemma RatioInUnit(v: nat, scale: nat)
    requires 0 < scale && v <= scale
    ensures 0.0 <= v as real / scale as real <= 1.0
  {
  }

  lemma Pow16Widths()
    ensures Pow16(8) - 1 == 0xffff_ffff
    ensures Pow16(6) - 1 == 0xff_ffff
  {
  }

  /** A SHA-256 `hexdigest()`: 64 lower-case hexadecimal characters. */
  predicate IsHexDigest(s: string) {
    |s| == 64 && forall i :: 0 <= i < |s| ==> '0' <= s[i] <= '9' || 'a' <= s[i] <= 'f'
  }

  type HexDigest = s: string | IsHexDigest(s)
    witness seq(64, _ => '0')

  /** The digest function (`hashlib.sha256(x.encode()).hexdigest()`), taken as
      a parameter: the model never looks inside it. */
  type Hasher = string -> HexDigest

  /** The shape of a digest under both chunkings: 8 chunks of 8 digits, and 11
      chunks of 6 digits whose last one has only 4. */
  lemma DigestChunking(d: HexDigest)
    ensures IsHex(d)
    ensures NumChunks(|d|, 8) == 8
    ensures NumChunks(|d|, 6) == 11 && |Chunk(d, 6, 10)| == 4
  {
  }

  /** The loop shared by `hash_to_params` and the living renderer: cut `s` into
      chunks of `width` characters, parse each with `int(chunk, 16)` and divide
      by `scale`; the first chunk that is not hexadecimal raises ValueError. */
  method ParseChunks(s: string, width: nat, scale: nat) returns (r: Result<seq<real>>)
    requires width > 0 && scale > 0
    ensures r.Ok? <==> IsHex(s)
    ensures r.Err? ==> r.error == ValueError
    ensures r.Ok? ==> |r.value| == NumChunks(|s|, width)
    ensures r.Ok? ==> forall k :: 0 <= k < |r.value| ==> r.value[k] == Param(s, width, scale, k)
  {
    var params: seq<real> := [];
    var i := 0;
    while i < |s|
      invariant i == |params| * width
      invariant i < |s| + width
      invariant forall j :: 0 <= j < i && j < |s| ==> IsHexDigit(s[j])
      invariant forall k :: 0 <= k < |params| ==> params[k] == Param(s, width, scale, k)
    {
      var chunk := s[i..Min(i + width, |s|)];
      if !IsHex(chunk) {
        var j :| 0 <= j < |chunk| && !IsHexDigit(chunk[j]);
        assert s[i + j] == chunk[j];
        return Err(ValueError);
      }
      assert chunk == Chunk(s, width, |params|);
      params := params + [HexValue(chunk) as real / scale as real];
      i := i + width;
    }
    ChunkCountUnique(|s|, width, |params|);
    return Ok(params);
  }
}
