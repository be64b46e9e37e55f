/** The web application's deterministic rules: personality traits from an
    entropy snapshot, the merge of two seeds, and the in-memory fragment log
    with its gallery of the latest entries. Routes, templates and file writes
    are not modelled. */
module App {
  import opened Common
  import opened Hex
  import opened PyStr
  import opened FragmentGenerator
  import opened LivingFragment

  // ---------------------------------------------------------------- personality

  /** A snapshot value: a number, or text such as the capture time. */
  datatype Signal = Num(value: real) | Text(text: string)

  /** An entropy snapshot, by signal name. */
  type Snapshot = map<string, Signal>

  /** The signal under `key` is a number when present; the trait formulas
      divide it, and Python's division of text raises TypeError. */
  predicate NumericOrAbsent(snapshot: Snapshot, key: string)
  {
    key in snapshot ==> snapshot[key].Num?
  }

  /** The four signals the trait formulas read are numbers when present, as
      the harvester records them; its `timestamp` is text and is not read. */
  predicate TraitSignalsNumeric(snapshot: Snapshot)
  {
    && NumericOrAbsent(snapshot, "cpu_jitter")
    && NumericOrAbsent(snapshot, "process_count")
    && NumericOrAbsent(snapshot, "boot_time")
    && NumericOrAbsent(snapshot, "memory_free")
  }

  /** `snapshot.get(key, default)` of a numeric signal */
  function Get(snapshot: Snapshot, key: string, default: real): real
    requires NumericOrAbsent(snapshot, key)
  {
    if key in snapshot then snapshot[key].value else default
  }

  const DefaultJitter := 10.0
  const DefaultProcessCount := 100.0
  const DefaultMemoryFree := 8000000000.0
  const SecondsPerDay := 86400.0
  /** `1024**3` */
  const BytesPerGiB := 1073741824.0

  /** The trait formulas: chaos = jitter / 100, calm = 1 - chaos, complexity =
      processes / 1000, age = days since boot, energy = free GiB / 16; a missing
      signal takes its default, a missing boot time the current time `now`. */
  function ComputeTraits(snapshot: Snapshot, now: real): (p: Personality)
    requires TraitSignalsNumeric(snapshot)
    ensures p.chaos + p.calm == 1.0
    ensures p.energy == Get(snapshot, "memory_free", DefaultMemoryFree) / 17179869184.0
    ensures "cpu_jitter" !in snapshot ==> p.chaos == 0.1 && p.calm == 0.9
    ensures "process_count" !in snapshot ==> p.complexity == 0.1
    ensures "boot_time" !in snapshot ==> p.age == 0.0
  {
    var jitter := Get(snapshot, "cpu_jitter", DefaultJitter);
    Personality(
      jitter / 100.0,
      1.0 - jitter / 100.0,
      Get(snapshot, "process_count", DefaultProcessCount) / 1000.0,
      (now - Get(snapshot, "boot_time", now)) / SecondsPerDay,
      Get(snapshot, "memory_free", DefaultMemoryFree) / BytesPerGiB / 16.0)
  }

  /** A snapshot without a boot time is always described as newborn. */
  lemma MissingBootTimeIsNewborn(snapshot: Snapshot, now: real)
    requires TraitSignalsNumeric(snapshot) && "boot_time" !in snapshot
    ensures Newborn in Labels(ComputeTraits(snapshot, now))
  {
    LabelRules(ComputeTraits(snapshot, now));
  }

  /** The harvester stores the boot time modulo 65536 seconds, so for any clock
      reading past 65536 s plus a week (any date after 1970-01-08) the age
      exceeds seven days and the fragment is always described as ancient. */
  lemma ReducedBootTimeIsAncient(snapshot: Snapshot, now: real)
    requires TraitSignalsNumeric(snapshot)
    requires "boot_time" in snapshot && 0.0 <= snapshot["boot_time"].value < 65536.0
    requires now >= 65536.0 + 7.0 * SecondsPerDay
    ensures Ancient in Labels(ComputeTraits(snapshot, now))
    ensures Newborn !in Labels(ComputeTraits(snapshot, now))
  {
    var p := ComputeTraits(snapshot, now);
    assert p.age * SecondsPerDay > 7.0 * SecondsPerDay;
    LabelRules(p);
  }

  /** The worked example: jitter 80, 600 processes, booted now and 16 GiB free
      give exactly chaotic, intricate, newborn, energetic. */
  lemma ScenarioLabels(now: real)
    ensures var snapshot := map["timestamp" := Text("2024-01-01T00:00:00"), "cpu_jitter" := Num(80.0),
                                "process_count" := Num(600.0), "boot_time" := Num(now),
                                "memory_free" := Num(17179869184.0)];
      TraitSignalsNumeric(snapshot) &&
      var p := ComputeTraits(snapshot, now);
      && p == Personality(0.8, 0.2, 0.6, 0.0, 1.0)
      && Names(Labels(p)) == ["chaotic", "intricate", "newborn", "energetic"]
  {
    var p := Personality(0.8, 0.2, 0.6, 0.0, 1.0);
    assert Labels(p) == [Chaotic, Intricate, Newborn, Energetic];
  }

  /** What `create_personality_data` writes: the file it writes to and the
      JSON content. */
  datatype PersonalityRecord =
    PersonalityRecord(path: string, hash: string, personality: Personality, timestamp: string, traits: seq<string>)

  /** `fragments/{user_id}_{seed_hash[:12]}_personality.json` */
  function PersonalityPath(userId: string, seedHash: string): string
  {
    "fragments/" + userId + "_" + Prefix(seedHash, 12) + "_personality.json"
  }

  /** `create_personality_data`: the traits, then the labels. The source
      writes the label rules out again inline, in the same words and order as
      `describe_personality`, so the model takes them from there. */
  method CreatePersonalityData(seedHash: string, snapshot: Snapshot, userId: string, now: real, timestamp: string)
    returns (record: PersonalityRecord)
    requires TraitSignalsNumeric(snapshot)
    ensures record.path == PersonalityPath(userId, seedHash) && record.hash == seedHash
    ensures record.personality == ComputeTraits(snapshot, now)
    ensures record.traits == Names(Labels(record.personality))
    ensures record.timestamp == timestamp
  {
    var p := ComputeTraits(snapshot, now);
    var traits: seq<string> := [];
    if p.chaos > 0.7 {
      traits := traits + ["chaotic"];
    } else if p.calm > 0.7 {
      traits := traits + ["serene"];
    }
    assert traits == if p.chaos > 0.7 then ["chaotic"] else if p.calm > 0.7 then ["serene"] else [];
    ghost var before := traits;
    if p.complexity > 0.5 {
      traits := traits + ["intricate"];
    } else {
      traits := traits + ["minimal"];
    }
    assert traits == before + if p.complexity > 0.5 then ["intricate"] else ["minimal"];
    before := traits;
    if p.age > 7.0 {
      traits := traits + ["ancient"];
    } else if p.age < 1.0 {
      traits := traits + ["newborn"];
    }
    assert traits == before + if p.age > 7.0 then ["ancient"] else if p.age < 1.0 then ["newborn"] else [];
    before := traits;
    if p.energy > 0.7 {
      traits := traits + ["energetic"];
    } else if p.energy < 0.3 {
      traits := traits + ["dormant"];
    }
    assert traits == before + if p.energy > 0.7 then ["energetic"] else if p.energy < 0.3 then ["dormant"] else [];
    LabelNamesByRule(p);
    record := PersonalityRecord(PersonalityPath(userId, seedHash), seedHash, p, timestamp, traits);
  }

  // ---------------------------------------------------------------- merge

  /** The JSON body of a merge request, as text fields by name. */
  type Request = map<string, string>

  /** `data.get(key, '')` */
  function Field(request: Request, key: string): string
  {
    if key in request then request[key] else ""
  }

  const MissingHashesMessage := "Missing fragment hashes"

  datatype MergeResponse =
    | MergeFailed(error: string)
    | Merged(filename: string, hash: string, parentHashes: seq<string>)

  /** No character of a digest is a path separator. */
  lemma DigestHasNoSlash(d: HexDigest)
    ensures '/' !in d
  {
  }

  /** The base name of a static fragment's path, for a user name without `/`
      and a hexadecimal seed, is its file name. */
  lemma StaticBasename(userId: string, d: HexDigest)
    requires '/' !in userId
    ensures Basename(StaticPath(userId, d)) == StaticName(userId, d)
  {
    DigestHasNoSlash(d);
    var name := StaticName(userId, d);
    assert forall i :: 0 <= i < |name| ==> name[i] in userId || name[i] in Prefix(d, 12) || name[i] in "_.png";
    BasenameOfJoin("fragments/", name);
  }

  /** What a merge of two already stripped hashes answers: a refusal when
      either is empty; otherwise the digest of the two concatenated in the
      given order is the new seed, saved as a static fragment of user
      "merged", with the parents recorded by their first 12 characters. */
  function MergeOutcome(hash1: string, hash2: string, digest: Hasher): MergeResponse
  {
    if hash1 == [] || hash2 == [] then MergeFailed(MissingHashesMessage)
    else
      var seed := digest(hash1 + hash2);
      Merged(StaticName("merged", seed), seed, [Prefix(hash1, 12), Prefix(hash2, 12)])
  }

  /** `merge_fragments`: strips both hashes of the request, refuses the merge
      when either is then empty (nothing is digested or rendered), and
      otherwise renders the merged seed and answers with the base name of the
      saved file. */
  method MergeFragments(request: Request, digest: Hasher) returns (response: MergeResponse)
    ensures response == MergeOutcome(Strip(Field(request, "hash1")), Strip(Field(request, "hash2")), digest)
  {
    var hash1 := Strip(Field(request, "hash1"));
    var hash2 := Strip(Field(request, "hash2"));
    if hash1 == [] || hash2 == [] {
      return MergeFailed(MissingHashesMessage);
    }
    var merged := digest(hash1 + hash2);
    DigestChunking(merged);
    var rendered := GenerateFragment(merged, "merged");
    assert rendered.Ok?;
    var filename, seed := rendered.value.filename, rendered.value.hash;
    StaticBasename("merged", merged);
    response := Merged(Basename(filename), seed, [Prefix(hash1, 12), Prefix(hash2, 12)]);
  }

  /** The merge answer, read field by field: refused with the fixed message
      exactly when a stripped hash is empty; otherwise the new hash is the
      digest of the stripped hashes in request order, the saved file is the
      static fragment of user "merged" for it, and the parents are the two
      12-character prefixes, first hash first. */
  lemma MergeRules(request: Request, digest: Hasher)
    ensures var hash1, hash2 := Strip(Field(request, "hash1")), Strip(Field(request, "hash2"));
      var r := MergeOutcome(hash1, hash2, digest);
      && (r.MergeFailed? <==> hash1 == [] || hash2 == [])
      && (r.MergeFailed? ==> r.error == MissingHashesMessage)
      && (r.Merged? ==>
          && r.hash == digest(hash1 + hash2)
          && r.parentHashes == [Prefix(hash1, 12), Prefix(hash2, 12)]
          && r.filename == StaticName("merged", r.hash))
  {
  }

  /** A merge is refused exactly when one of the two hashes is missing or
      made only of whitespace. */
  lemma MergeRefusedIff(request: Request, digest: Hasher)
    ensures var raw1, raw2 := Field(request, "hash1"), Field(request, "hash2");
      MergeOutcome(Strip(raw1), Strip(raw2), digest).MergeFailed? <==>
        (forall i :: 0 <= i < |raw1| ==> IsSpace(raw1[i])) || (forall i :: 0 <= i < |raw2| ==> IsSpace(raw2[i]))
  {
    StripEmptyIff(Field(request, "hash1"));
    StripEmptyIff(Field(request, "hash2"));
  }

  // ---------------------------------------------------------------- fragment log

  datatype FragmentKind = Static | Living

  /** A static fragment has one file, a living one a list of frame files. */
  datatype FileNames = Single(name: string) | Frames(names: seq<string>)

  /** One entry of the fragment log. */
  datatype FragmentRecord =
    FragmentRecord(filename: FileNames, hash: string, timestamp: string, entropySources: Snapshot, kind: FragmentKind)

  /** The gallery shows at most this many entries. */
  const GalleryWindow := 20

  /** `entries[-20:]`: the last `min(20, |entries|)` entries, oldest first. */
  function Window<T>(entries: seq<T>): (w: seq<T>)
    ensures |w| == Min(GalleryWindow, |entries|)
    ensures w == entries[|entries| - |w|..]
  {
    entries[Max(0, |entries| - GalleryWindow)..]
  }

  /** Appending an entry shows it last in the gallery; the oldest shown entry
      drops out once the window is full. */
  lemma WindowAfterAppend<T>(entries: seq<T>, x: T)
    ensures Window(entries + [x]) ==
      if |entries| < GalleryWindow then Window(entries) + [x] else Window(entries)[1..] + [x]
  {
    var s := entries + [x];
    if |entries| < GalleryWindow {
      assert Window(s) == s;
    } else {
      var n := |entries|;
      calc {
        Window(s);
        s[n + 1 - GalleryWindow..];
        entries[n + 1 - GalleryWindow..] + [x];
        entries[n - GalleryWindow..][1..] + [x];
      }
    }
  }

  /** Frame file names of a living fragment's first `n` frames, as stored. */
  function LivingNames(seed: string, n: nat): (names: seq<string>)
    ensures |names| == n
  {
    seq(n, k requires 0 <= k < n => FrameName("living", seed, k))
  }

  /** `FRAGMENTS_DB`: an append-only list of fragment records. */
  class FragmentLog {
    var entries: seq<FragmentRecord>

    constructor ()
      ensures entries == []
    {
      entries := [];
    }

    /** What the gallery page shows. */
    function Gallery(): seq<FragmentRecord>
      reads this
    {
      Window(entries)
    }

    /** `generate`: renders the captured seed as user "web_user", writes its
        personality file, and appends one static record; earlier records are
        kept as they were. */
    method RecordStatic(seed: HexDigest, snapshot: Snapshot, now: real, timestamp: string)
      returns (filename: string, hash: string, personality: PersonalityRecord)
      requires TraitSignalsNumeric(snapshot)
      modifies this
      ensures filename == StaticName("web_user", seed) && hash == seed
      ensures personality.path == PersonalityPath("web_user", seed) && personality.hash == seed
      ensures personality.personality == ComputeTraits(snapshot, now) && personality.timestamp == timestamp
      ensures personality.traits == Names(Labels(ComputeTraits(snapshot, now)))
      ensures entries == old(entries) + [FragmentRecord(Single(filename), hash, timestamp, snapshot, Static)]
    {
      DigestChunking(seed);
      var rendered := GenerateFragment(seed, "web_user");
      assert rendered.Ok?;
      personality := CreatePersonalityData(seed, snapshot, "web_user", now, timestamp);
      StaticBasename("web_user", seed);
      filename := Basename(rendered.value.filename);
      hash := rendered.value.hash;
      entries := entries + [FragmentRecord(Single(filename), hash, timestamp, snapshot, Static)];
    }

    /** `generate_living`: renders five frames of the captured seed, writes
        the personality file (as user "living_user"), and appends one living
        record listing the frame file names in frame order. */
    method RecordLiving(seed: HexDigest, snapshot: Snapshot, now: real, timestamp: string, digest: Hasher, sin: Sine)
      returns (frames: seq<string>, personality: PersonalityRecord)
      requires TraitSignalsNumeric(snapshot)
      modifies this
      ensures frames == LivingNames(seed, 5)
      ensures personality.path == PersonalityPath("living_user", seed) && personality.hash == seed
      ensures personality.personality == ComputeTraits(snapshot, now) && personality.timestamp == timestamp
      ensures personality.traits == Names(Labels(ComputeTraits(snapshot, now)))
      ensures entries == old(entries) + [FragmentRecord(Frames(frames), seed, timestamp, snapshot, Living)]
    {
      var paths := CreateAnimationFrames(seed, 5, digest, sin);
      personality := CreatePersonalityData(seed, snapshot, "living_user", now, timestamp);
      frames := seq(|paths|, k requires 0 <= k < |paths| => Basename(paths[k]));
      forall k | 0 <= k < 5 ensures frames[k] == FrameName("living", seed, k) {
        FrameBasename(seed, k);
      }
      entries := entries + [FragmentRecord(Frames(frames), seed, timestamp, snapshot, Living)];
    }
  }

  /** The base name of a living frame's path is its file name. */
  lemma FrameBasename(d: HexDigest, frame: int)
    ensures Basename(FramePath("living", d, frame)) == FrameName("living", d, frame)
  {
    DigestHasNoSlash(d);
    var name := FrameName("living", d, frame);
    var digits := Format03(frame);
    assert '/' !in digits;
    assert forall i :: 0 <= i < |name| ==>
      name[i] in "living_" || name[i] in Prefix(d, 12) || name[i] in "_frame" || name[i] in digits || name[i] in ".png";
    BasenameOfJoin("fragments/", name);
  }
}
