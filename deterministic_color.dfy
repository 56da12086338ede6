/*
 * `Vibrate`, the deterministic colour generator of the blog
 * (src/utils/deterministic-color.ts): a seed is taken from the key (a number,
 * a numeric string, or the Java-style 32-bit hash of any other string), turned
 * into three pseudo-random numbers by a Halton sequence or a modular "prime
 * walk", mapped into hue, saturation and lightness within a colour profile,
 * and written out as a CSS `hsl(...)` string or handed to the HSLuv library.
 *
 * Arithmetic on JS numbers is modelled by `int` where the source only ever
 * holds integers (the hash, the seed, the prime-walk residues) and by `real`
 * otherwise, as idealised arithmetic without IEEE rounding.
 */
module DeterministicColor {
  import opened Js

  // ---------------------------------------------------------------------------
  // _hashCode

  /** One UTF-16 code unit, as `charCodeAt` returns it. */
  type CodeUnit = x: int | 0 <= x < 0x1_0000

  /** `x << 5` on JS numbers: both the operand and the result are 32-bit. */
  function ShiftLeft5(x: int): int {
    ToInt32(ToInt32(x) * 32)
  }

  /** One step of the loop body: `(hash << 5) - hash + character`, then
      `hash & hash`, which truncates back to 32 bits. */
  function HashStep(hash: int, character: CodeUnit): int {
    ToInt32(ShiftLeft5(hash) - hash + character)
  }

  /** The hash of a key, one step per code unit from the left, starting at 0. */
  function Hash(key: seq<CodeUnit>): (hash: int)
    ensures IsInt32(hash)
  {
    if key == [] then 0 else HashStep(Hash(key[..|key| - 1]), key[|key| - 1])
  }

  /** The polynomial Java's `String.hashCode` evaluates before truncation:
      the sum of `key[i] * 31^(n-1-i)`. */
  function JavaPolynomial(key: seq<CodeUnit>): int {
    if key == [] then 0 else 31 * JavaPolynomial(key[..|key| - 1]) + key[|key| - 1]
  }

  /** For a 32-bit hash, one step of the loop is `31 * hash + character`
      wrapped to 32 bits. */
  lemma HashStepIsTimes31(hash: int, character: CodeUnit)
    requires IsInt32(hash)
    ensures HashStep(hash, character) == ToInt32(31 * hash + character)
  {
    var shifted := ToInt32(hash * 32);
    assert ShiftLeft5(hash) == shifted;
    assert (shifted - hash + character) - (31 * hash + character) == shifted - hash * 32;
    ToInt32Congruent(shifted - hash + character, 31 * hash + character);
  }

  /** A multiple of 2^32 stays one when multiplied by 31. */
  lemma Times31Congruent(d: int)
    requires d % TwoTo32 == 0
    ensures (31 * d) % TwoTo32 == 0
  {
    var k := d / TwoTo32;
    assert d == k * TwoTo32;
    assert 31 * d == (31 * k) * TwoTo32;
    ModShift(0, 31 * k, TwoTo32);
  }

  /** The model of `_hashCode` is the Java string hash: the polynomial in 31
      over the code units, wrapped to a signed 32-bit integer. */
  lemma {:induction false} HashIsJavaHashCode(key: seq<CodeUnit>)
    ensures Hash(key) == ToInt32(JavaPolynomial(key))
  {
    if key != [] {
      var prefix, c := key[..|key| - 1], key[|key| - 1];
      HashIsJavaHashCode(prefix);
      HashStepIsTimes31(Hash(prefix), c);
      var d := Hash(prefix) - JavaPolynomial(prefix);
      assert d % TwoTo32 == 0;
      Times31Congruent(d);
      assert (31 * Hash(prefix) + c) - (31 * JavaPolynomial(prefix) + c) == 31 * d;
      ToInt32Congruent(31 * Hash(prefix) + c, 31 * JavaPolynomial(prefix) + c);
    }
  }

  /** `_hashCode`: the loop over the code units of the key. */
  method HashCode(key: seq<CodeUnit>) returns (hash: int)
    ensures hash == Hash(key)
    ensures IsInt32(hash)
    ensures key == [] ==> hash == 0
  {
    hash := 0;
    var i := 0;
    while i < |key|
      invariant 0 <= i <= |key|
      invariant hash == Hash(key[..i])
    {
      var character := key[i];
      assert key[..i + 1][..i] == key[..i];
      hash := ShiftLeft5(hash) - hash + character;
      hash := ToInt32(hash);
      i := i + 1;
    }
    assert key[..|key|] == key;
  }

  // ---------------------------------------------------------------------------
  // The seed

  /** The `input` of `Vibrate`: a number (modelled as an integer) or a string
      (as its UTF-16 code units). */
  datatype Key = NumberKey(n: int) | StringKey(s: seq<CodeUnit>)

  /** The seed a key stands for: a number is itself; a string `Number()`
      accepts is that number (`toNumber` gives `None` for NaN); any other string
      is hashed. */
  function Seed(key: Key, toNumber: seq<CodeUnit> -> Option<int>): (seed: int)
    ensures key.StringKey? && toNumber(key.s).None? ==> IsInt32(seed)
  {
    match key
    case NumberKey(n) => n
    case StringKey(s) => if toNumber(s).Some? then toNumber(s).value else Hash(s)
  }

  // ---------------------------------------------------------------------------
  // The Halton generator

  const Bases: seq<nat> := [3, 5, 7]

  /** The radical inverse of `n` in base `b`: its base-`b` digits mirrored
      behind the point, the least significant digit first. */
  function RadicalInverse(n: nat, b: nat): real
    requires b >= 2
    decreases n
  {
    if n == 0 then 0.0 else ((n % b) as real + RadicalInverse(n / b, b)) / b as real
  }

  /** Every radical inverse lies in [0, 1), and the one of 0 is 0. */
  lemma {:induction false} RadicalInverseBounds(n: nat, b: nat)
    requires b >= 2
    ensures 0.0 <= RadicalInverse(n, b) < 1.0
    ensures n == 0 ==> RadicalInverse(n, b) == 0.0
  {
    if n > 0 {
      RadicalInverseBounds(n / b, b);
      var d := (n % b) as real;
      var rest := RadicalInverse(n / b, b);
      assert d + rest < b as real;
      DivBetween(d + rest, b as real, 0.0);
    }
  }

  /** What the digit loop has summed (`res`) plus what the digits still to
      come (`i`, at weight `f`) add: always the radical inverse of the seed. */
  function Pending(res: real, f: real, i: nat, b: nat): real
    requires b >= 2
  {
    res + f * (b as real) * RadicalInverse(i, b)
  }

  /** One step of the digit loop keeps `Pending` fixed. */
  lemma HaltonStep(res: real, f: real, i: nat, b: nat)
    requires b >= 2 && i > 0
    ensures Pending(res + f * (i % b) as real, f / b as real, i / b, b) == Pending(res, f, i, b)
  {
    var bb := b as real;
    var d := (i % b) as real;
    var rest := RadicalInverse(i / b, b);
    assert RadicalInverse(i, b) == (d + rest) / bb;
    assert (f / bb) * bb == f;
    assert bb * ((d + rest) / bb) == d + rest;
    calc {
      Pending(res, f, i, b);
      res + f * bb * ((d + rest) / bb);
      res + f * (bb * ((d + rest) / bb));
      res + f * (d + rest);
      res + f * d + (f / bb) * bb * rest;
    }
  }

  lemma DivDecreases(i: nat, b: nat)
    requires b >= 2 && i > 0
    ensures i / b < i
  {
  }

  /** The inner `while` loop of the Halton code (lines 104-111): the digits
      of the seed in base `b`, each at a weight `b` times smaller than the one
      before. */
  method RadicalInverseDigits(key: nat, b: nat) returns (res: real)
    requires b >= 2
    ensures res == RadicalInverse(key, b)
  {
    res := 0.0;
    var f := 1.0 / b as real;
    var i: nat := key;
    assert f * (b as real) == 1.0;
    assert Pending(res, f, i, b) == 0.0 + 1.0 * RadicalInverse(key, b);
    while i > 0
      invariant Pending(res, f, i, b) == RadicalInverse(key, b)
      decreases i
    {
      HaltonStep(res, f, i, b);
      DivDecreases(i, b);
      res := res + f * (i % b) as real;
      i := i / b;
      f := f / b as real;
    }
    assert Pending(res, f, 0, b) == res + f * (b as real) * 0.0;
  }

  /** The Halton loop of `_getHslComponents` for a non-negative seed (lines
      99-113): one radical inverse per base 3, 5 and 7, pushed in order. */
  method HaltonComponents(key: nat) returns (results: seq<real>)
    ensures |results| == |Bases|
    ensures forall j :: 0 <= j < |Bases| ==> results[j] == RadicalInverse(key, Bases[j])
  {
    results := [];
    var j := 0;
    while j < |Bases|
      invariant 0 <= j <= |Bases|
      invariant |results| == j
      invariant forall k :: 0 <= k < j ==> results[k] == RadicalInverse(key, Bases[k])
    {
      var res := RadicalInverseDigits(key, Bases[j]);
      results := results + [res];
      j := j + 1;
    }
  }

  // ---------------------------------------------------------------------------
  // The prime walk

  /** `359 * 101 * 103`, after which the prime walk repeats. */
  const PrimeWalkPeriod: int := 3_734_677

  /** The three pseudo-random numbers of the prime walk, with JS's truncating
      `%` on the (possibly negative) products. */
  function PrimeWalk(key: int, hueDistance: int): (real, real, real) {
    (RemInt(key * hueDistance, 359) as real * (360.0 / 359.0),
     RemInt(key * 13, 101) as real * (100.0 / 101.0),
     RemInt(key * 19, 103) as real * (100.0 / 103.0))
  }

  /** Adding a multiple of `m` of the same sign leaves the truncating
      remainder unchanged. */
  lemma RemIntShift(a: int, q: int, m: int)
    requires m > 0
    requires (a >= 0 && q >= 0) || (a <= 0 && q <= 0)
    ensures RemInt(a + q * m, m) == RemInt(a, m)
  {
    var p := q * m;
    if q > 0 {
      MulAtLeast(q, m);
    } else if q < 0 {
      MulAtLeast(-q, m);
      assert -p == (-q) * m;
    } else {
      assert p == 0;
    }
    if a >= 0 && q >= 0 {
      ModShift(a, q, m);
      assert RemInt(a + p, m) == (a + p) % m;
    } else if a + p < 0 {
      ModShift(-a, -q, m);
      assert -(a + p) == -a + (-q) * m;
      assert RemInt(a + p, m) == -((-(a + p)) % m);
    }
  }

  /** For a non-negative key the prime walk repeats after 3,734,677 steps,
      whatever the hue distance. */
  lemma PrimeWalkPeriodic(key: int, hueDistance: int)
    requires key >= 0
    ensures PrimeWalk(key + PrimeWalkPeriod, hueDistance) == PrimeWalk(key, hueDistance)
  {
    assert (key + PrimeWalkPeriod) * hueDistance == key * hueDistance + (hueDistance * 10403) * 359;
    if hueDistance >= 0 {
      assert key * hueDistance >= 0;
    } else {
      assert key * hueDistance <= 0;
    }
    RemIntShift(key * hueDistance, hueDistance * 10403, 359);
    assert (key + PrimeWalkPeriod) * 13 == key * 13 + (13 * 36977) * 101;
    RemIntShift(key * 13, 13 * 36977, 101);
    assert (key + PrimeWalkPeriod) * 19 == key * 19 + (19 * 36259) * 103;
    RemIntShift(key * 19, 19 * 36259, 103);
  }

  // ---------------------------------------------------------------------------
  // Profiles and options

  /** A colour profile: the colour space (`hsl`, `husl` or `huslp`) and the
      saturation and lightness ranges. */
  datatype Profile = Profile(space: string, satMin: real, satMax: real, lightMin: real, lightMax: real)

  const ColorProfiles: map<string, Profile> := map[
    "hsldefault" := Profile("hsl", 65.0, 95.0, 45.0, 75.0),
    "superwide" := Profile("hsl", 30.0, 100.0, 20.0, 90.0),
    "saturated" := Profile("hsl", 100.0, 100.0, 40.0, 70.0),
    "greyscale" := Profile("hsl", 0.0, 0.0, 15.0, 85.0)]

  /** The profiles that need the HSLuv library. */
  const HuslProfiles: map<string, Profile> := map[
    "default" := Profile("husl", 90.0, 100.0, 50.0, 85.0),
    "dark" := Profile("husl", 80.0, 100.0, 30.0, 60.0),
    "light" := Profile("husl", 70.0, 100.0, 60.0, 90.0),
    "pastel" := Profile("huslp", 60.0, 100.0, 60.0, 90.0),
    "wide" := Profile("husl", 50.0, 100.0, 30.0, 85.0)]

  const ProfileNames: set<string> :=
    {"hsldefault", "superwide", "saturated", "greyscale", "default", "dark", "light", "pastel", "wide"}

  /** The merged table `{ ...colorProfiles, ...huslProfiles }`. */
  function DefaultProfiles(): (table: map<string, Profile>)
    ensures table.Keys == ColorProfiles.Keys + HuslProfiles.Keys
  {
    ColorProfiles + HuslProfiles
  }

  /** The two tables share no name, so the merge keeps every one of the nine
      tuples unchanged, and every profile's ranges are ordered and within
      [0, 100]. */
  lemma DefaultProfilesExact()
    ensures ColorProfiles.Keys !! HuslProfiles.Keys
    ensures DefaultProfiles().Keys == ProfileNames
    ensures forall name :: name in ColorProfiles ==> DefaultProfiles()[name] == ColorProfiles[name]
    ensures forall name :: name in HuslProfiles ==> DefaultProfiles()[name] == HuslProfiles[name]
    ensures forall name :: name in DefaultProfiles() ==> WellFormed(DefaultProfiles()[name])
  {
  }

  /** Ranges a profile maps into without wrapping around. */
  predicate WellFormed(p: Profile) {
    0.0 <= p.satMin <= p.satMax <= 100.0 && 0.0 <= p.lightMin <= p.lightMax <= 100.0
  }

  /** The module-level `profiles` table, which `_init` writes to. */
  class ProfileRegistry {
    var profiles: map<string, Profile>

    constructor()
      ensures profiles == DefaultProfiles()
    {
      profiles := DefaultProfiles();
    }
  }

  /** The options in force for one call. */
  datatype Options = Options(
    colorProfile: string,
    hueCenter: real,
    hueScale: real,
    generator: string,
    primeWalkHueDistance: int)

  const DefaultOptions: Options := Options("default", 0.0, 1.0, "halton", 223)

  /** The `colorProfile` a caller may pass: a profile name or a tuple. */
  datatype ProfileChoice = Named(name: string) | Custom(profile: Profile)

  /** `Partial<InputOptions>`: every field may be absent. */
  datatype InputOptions = InputOptions(
    colorProfile: Option<ProfileChoice>,
    hueCenter: Option<real>,
    hueScale: Option<real>,
    generator: Option<string>,
    primeWalkHueDistance: Option<int>)

  function OrElse<T>(o: Option<T>, default: T): T {
    if o.Some? then o.value else default
  }

  /** The options `_init` settles on: the defaults overridden by every field
      the caller gave, where a tuple profile is referred to as `"user"`. */
  function ResolveOptions(input: Option<InputOptions>): Options {
    match input
    case None => DefaultOptions
    case Some(o) =>
      Options(
        match o.colorProfile
        case None => DefaultOptions.colorProfile
        case Some(Named(name)) => name
        case Some(Custom(_)) => "user",
        OrElse(o.hueCenter, DefaultOptions.hueCenter),
        OrElse(o.hueScale, DefaultOptions.hueScale),
        OrElse(o.generator, DefaultOptions.generator),
        OrElse(o.primeWalkHueDistance, DefaultOptions.primeWalkHueDistance))
  }

  /** The profile table after `_init`: a tuple profile is stored under
      `"user"`; otherwise the table is left alone. */
  function ProfilesAfterInit(profiles: map<string, Profile>, input: Option<InputOptions>): map<string, Profile> {
    if input.Some? && input.value.colorProfile.Some? && input.value.colorProfile.value.Custom? then
      profiles["user" := input.value.colorProfile.value.profile]
    else profiles
  }

  /** `_init` picks a profile the caller asked for: a tuple is stored under
      the name the options now carry and nothing else in the table changes; a
      name is kept as given (known or not) and the table is untouched; no
      choice means `"default"`. */
  lemma InitSelectsRequestedProfile(profiles: map<string, Profile>, input: Option<InputOptions>)
    ensures var name := ResolveOptions(input).colorProfile;
      var table := ProfilesAfterInit(profiles, input);
      && (input.None? || input.value.colorProfile.None? ==> name == "default" && table == profiles)
      && (input.Some? && input.value.colorProfile.Some? && input.value.colorProfile.value.Named? ==>
            name == input.value.colorProfile.value.name && table == profiles)
      && (input.Some? && input.value.colorProfile.Some? && input.value.colorProfile.value.Custom? ==>
            && name == "user"
            && table[name] == input.value.colorProfile.value.profile
            && table.Keys == profiles.Keys + {"user"}
            && (forall k :: k in profiles && k != "user" ==> table[k] == profiles[k]))
  {
  }

  /** A tuple stored under `"user"` outlives its call: a later call that names
      `"user"` (or passes no tuple) still finds it. */
  lemma UserProfilePersists(profiles: map<string, Profile>, p: Profile, first: InputOptions, later: Option<InputOptions>)
    requires first.colorProfile == Some(Custom(p))
    requires later.None? || later.value.colorProfile.None? || later.value.colorProfile.value.Named?
    ensures ProfilesAfterInit(ProfilesAfterInit(profiles, Some(first)), later)["user"] == p
  {
  }

  /** `_init`: settles the options for this call and, for a tuple profile,
      writes it into the shared table under `"user"`. */
  method Init(registry: ProfileRegistry, input: Option<InputOptions>) returns (options: Options)
    modifies registry
    ensures options == ResolveOptions(input)
    ensures registry.profiles == ProfilesAfterInit(old(registry.profiles), input)
  {
    var newOptions := OrElse(input, InputOptions(None, None, None, None, None));
    var hueCenter := OrElse(newOptions.hueCenter, DefaultOptions.hueCenter);
    var hueScale := OrElse(newOptions.hueScale, DefaultOptions.hueScale);
    var generator := OrElse(newOptions.generator, DefaultOptions.generator);
    var distance := OrElse(newOptions.primeWalkHueDistance, DefaultOptions.primeWalkHueDistance);
    var colorProfile := OrElse(newOptions.colorProfile, Named(DefaultOptions.colorProfile));
    match colorProfile {
      case Named(name) =>
        options := Options(name, hueCenter, hueScale, generator, distance);
      case Custom(p) =>
        registry.profiles := registry.profiles["user" := p];
        options := Options("user", hueCenter, hueScale, generator, distance);
    }
  }

  // ---------------------------------------------------------------------------
  // _getHslComponents

  /** Hue, saturation and lightness of one colour. */
  datatype Hsl = Hsl(h: real, s: real, l: real)

  /** The three pseudo-random numbers for a seed: Halton in bases 3, 5 and 7 on
      the seed read as unsigned 32-bit when negative (`>>> 0`), or the prime
      walk for any other generator name. */
  function Randoms(seed: int, options: Options): (real, real, real) {
    if options.generator == "halton" then
      var n: nat := if seed < 0 then ToUint32(seed) else seed;
      (RadicalInverse(n, 3) * 360.0, RadicalInverse(n, 5) * 100.0, RadicalInverse(n, 7) * 100.0)
    else PrimeWalk(seed, options.primeWalkHueDistance)
  }

  /** Centring: a hue of 180 or more is moved down by a full turn. */
  function CenterHue(random1: real): real {
    if random1 >= 180.0 then random1 - 360.0 else random1
  }

  /** The product of two reals, named so that the solver can match its
      occurrences without reasoning about multiplication. */
  function Scaled(x: real, k: real): real { x * k }

  /** The final hue: scaled and shifted with truncating `%`, then lifted by a
      full turn when negative. It lies in [0, 360) whatever the scale and the
      centre. */
  function FinalHue(random1: real, hueScale: real, hueCenter: real): (h: real)
    ensures 0.0 <= h < 360.0
  {
    var wrapped := RemReal(Scaled(RemReal(random1, 360.0), hueScale) + hueCenter, 360.0);
    if wrapped < 0.0 then wrapped + 360.0 else wrapped
  }

  /** A random number in [0, 100) mapped into `[min, max]`, lifted by 100
      when negative. */
  function Spread(random: real, min: real, max: real): real {
    var v := RemReal(random, 100.0) / 100.0 * (max - min) + min;
    if v < 0.0 then v + 100.0 else v
  }

  /** When the random number is in [0, 100) and `0 <= min <= max`, the
      spread value lies in `[min, max]` and no lift happens. */
  lemma SpreadBounds(random: real, min: real, max: real)
    requires 0.0 <= random < 100.0 && 0.0 <= min <= max
    ensures min <= Spread(random, min, max) <= max
  {
    var r := RemReal(random, 100.0);
    assert r == random;
    var t := r / 100.0;
    assert 0.0 <= t < 1.0;
    var w := max - min;
    FractionOfWidth(t, w);
    var v := t * w + min;
    assert min <= v <= max;
    assert Spread(random, min, max) == v;
  }

  /** A fraction in [0, 1] of a non-negative width stays within the width. */
  lemma FractionOfWidth(t: real, w: real)
    ensures 0.0 <= t <= 1.0 && 0.0 <= w ==> 0.0 <= t * w <= w
  {
    if 0.0 <= t <= 1.0 && 0.0 <= w {
      assert t * w <= 1.0 * w by { MulOrderNonNeg(w, t, 1.0); }
    }
  }

  lemma MulOrderNonNeg(w: real, a: real, b: real)
    requires 0.0 <= w && 0.0 <= a <= b
    ensures 0.0 <= a * w <= b * w
  {
    if w > 0.0 {
      MulOrder(w, a, b);
      MulOrder(w, 0.0, a);
    }
  }

  /** The components from three random numbers: a `TypeError` when the
      profile name is not in the table, since line 143 reads a field of the
      missing entry. */
  function HslFrom(randoms: (real, real, real), options: Options, profiles: map<string, Profile>): Outcome<Hsl>
  {
    var (random1, random2, random3) := randoms;
    if options.colorProfile !in profiles then Thrown(TypeError)
    else
      var profile := profiles[options.colorProfile];
      Ok(Hsl(FinalHue(CenterHue(random1), options.hueScale, options.hueCenter),
             Spread(random2, profile.satMin, profile.satMax),
             Spread(random3, profile.lightMin, profile.lightMax)))
  }

  /** `_getHslComponents`: the components of the key's random numbers. */
  function HslComponents(key: Key, options: Options, profiles: map<string, Profile>,
                         toNumber: seq<CodeUnit> -> Option<int>): Outcome<Hsl>
  {
    HslFrom(Randoms(Seed(key, toNumber), options), options, profiles)
  }

  /** For a non-negative seed (always so for Halton after `>>> 0`) the second
      and third random numbers lie in [0, 100). */
  lemma RandomsBounds(seed: int, options: Options)
    requires options.generator == "halton" || seed >= 0
    ensures 0.0 <= Randoms(seed, options).1 < 100.0
    ensures 0.0 <= Randoms(seed, options).2 < 100.0
  {
    if options.generator == "halton" {
      var n: nat := if seed < 0 then ToUint32(seed) else seed;
      RadicalInverseBounds(n, 5);
      RadicalInverseBounds(n, 7);
    } else {
      assert seed * 13 >= 0 && seed * 19 >= 0;
    }
  }

  /** The components fail exactly on an unknown profile name; otherwise the
      hue lies in [0, 360) and, for a non-negative seed and ordered
      non-negative profile ranges, saturation and lightness lie within the
      profile's ranges. */
  lemma HslComponentsBounds(key: Key, options: Options, profiles: map<string, Profile>,
                            toNumber: seq<CodeUnit> -> Option<int>)
    ensures HslComponents(key, options, profiles, toNumber).Thrown? <==> options.colorProfile !in profiles
    ensures HslComponents(key, options, profiles, toNumber).Thrown? ==>
      HslComponents(key, options, profiles, toNumber).error == TypeError
    ensures HslComponents(key, options, profiles, toNumber).Ok? ==>
      0.0 <= HslComponents(key, options, profiles, toNumber).value.h < 360.0
    ensures var r := HslComponents(key, options, profiles, toNumber);
      r.Ok? && (options.generator == "halton" || Seed(key, toNumber) >= 0) ==>
      var p := profiles[options.colorProfile];
      (0.0 <= p.satMin <= p.satMax ==> p.satMin <= r.value.s <= p.satMax) &&
      (0.0 <= p.lightMin <= p.lightMax ==> p.lightMin <= r.value.l <= p.lightMax)
  {
    var seed := Seed(key, toNumber);
    if options.colorProfile in profiles && (options.generator == "halton" || seed >= 0) {
      RandomsBounds(seed, options);
      var p := profiles[options.colorProfile];
      var randoms := Randoms(seed, options);
      if 0.0 <= p.satMin <= p.satMax {
        SpreadBounds(randoms.1, p.satMin, p.satMax);
      }
      if 0.0 <= p.lightMin <= p.lightMax {
        SpreadBounds(randoms.2, p.lightMin, p.lightMax);
      }
    }
  }

  /** As written, a negative key under the prime walk leaves the profile's
      saturation range: for key -1 and the `pastel` profile (saturation 60 to
      100), `-13 % 101` is -13, so the second random number is about -12.87
      and the saturation about 54.85. With non-negative remainders it stays
      in range. */
  lemma PrimeWalkNegativeKeyLeavesRange(toNumber: seq<CodeUnit> -> Option<int>)
    ensures var options := Options("pastel", 0.0, 1.0, "primeWalk", 223);
      var r := HslComponents(NumberKey(-1), options, DefaultProfiles(), toNumber);
      && r.Ok?
      && DefaultProfiles()["pastel"].satMin == 60.0
      && r.value.s < 60.0
      && HslComponentsCorrected(NumberKey(-1), options, DefaultProfiles(), toNumber).value.s >= 60.0
  {
    var options := Options("pastel", 0.0, 1.0, "primeWalk", 223);
    assert "pastel" in DefaultProfiles() && DefaultProfiles()["pastel"] == Profile("huslp", 60.0, 100.0, 60.0, 90.0);
    assert RemInt(-13, 101) == -13;
    var random2 := (-13) as real * (100.0 / 101.0);
    assert Randoms(-1, options).1 == random2;
    assert RemReal(random2, 100.0) == random2 by {
      assert Trunc(random2 / 100.0) == 0;
    }
    assert Spread(random2, 60.0, 100.0) == random2 / 100.0 * 40.0 + 60.0;
    HslComponentsCorrectedBounds(NumberKey(-1), options, DefaultProfiles(), toNumber);
  }

  /** The prime walk with non-negative remainders, as the bounds of the
      Halton branch evidently intend for every key. */
  function PrimeWalkCorrected(key: int, hueDistance: int): (real, real, real) {
    (((key * hueDistance) % 359) as real * (360.0 / 359.0),
     ((key * 13) % 101) as real * (100.0 / 101.0),
     ((key * 19) % 103) as real * (100.0 / 103.0))
  }

  /** The corrected random numbers: Halton as written, the prime walk with
      non-negative remainders. */
  function RandomsCorrected(seed: int, options: Options): (real, real, real) {
    if options.generator == "halton" then Randoms(seed, options)
    else PrimeWalkCorrected(seed, options.primeWalkHueDistance)
  }

  /** The corrected `_getHslComponents`. */
  function HslComponentsCorrected(key: Key, options: Options, profiles: map<string, Profile>,
                                  toNumber: seq<CodeUnit> -> Option<int>): Outcome<Hsl>
  {
    HslFrom(RandomsCorrected(Seed(key, toNumber), options), options, profiles)
  }

  /** With non-negative remainders, the second and third random numbers lie
      in [0, 100) for every seed and every generator. */
  lemma RandomsCorrectedBounds(seed: int, options: Options)
    ensures 0.0 <= RandomsCorrected(seed, options).1 < 100.0
    ensures 0.0 <= RandomsCorrected(seed, options).2 < 100.0
  {
    if options.generator == "halton" {
      RandomsBounds(seed, options);
    } else {
      var a, b := (seed * 13) % 101, (seed * 19) % 103;
      MulOrderNonNeg(100.0 / 101.0, a as real, 100.0);
      MulOrderNonNeg(100.0 / 103.0, b as real, 102.0);
    }
  }

  /** The corrected components keep every key's saturation and lightness
      within ordered profile ranges, and the hue in [0, 360). */
  lemma HslComponentsCorrectedBounds(key: Key, options: Options, profiles: map<string, Profile>,
                                     toNumber: seq<CodeUnit> -> Option<int>)
    ensures var r := HslComponentsCorrected(key, options, profiles, toNumber);
      (r.Thrown? <==> options.colorProfile !in profiles) && (r.Thrown? ==> r.error == TypeError)
    ensures var r := HslComponentsCorrected(key, options, profiles, toNumber);
      r.Ok? ==>
      var p := profiles[options.colorProfile];
      && 0.0 <= r.value.h < 360.0
      && (0.0 <= p.satMin <= p.satMax ==> p.satMin <= r.value.s <= p.satMax)
      && (0.0 <= p.lightMin <= p.lightMax ==> p.lightMin <= r.value.l <= p.lightMax)
  {
    var randoms := RandomsCorrected(Seed(key, toNumber), options);
    RandomsCorrectedBounds(Seed(key, toNumber), options);
    if options.colorProfile in profiles {
      var p := profiles[options.colorProfile];
      if 0.0 <= p.satMin <= p.satMax {
        SpreadBounds(randoms.1, p.satMin, p.satMax);
      }
      if 0.0 <= p.lightMin <= p.lightMax {
        SpreadBounds(randoms.2, p.lightMin, p.lightMax);
      }
    }
  }

  /** A string that `Number()` accepts gives exactly the components of that
      number. */
  lemma NumericStringSameAsNumber(s: seq<CodeUnit>, n: int, options: Options, profiles: map<string, Profile>,
                                  toNumber: seq<CodeUnit> -> Option<int>)
    requires toNumber(s) == Some(n)
    ensures HslComponents(StringKey(s), options, profiles, toNumber) == HslComponents(NumberKey(n), options, profiles, toNumber)
  {
  }

  /** Lines 86-92 of `_getHslComponents`: the seed of a key. */
  method KeySeed(key: Key, toNumber: seq<CodeUnit> -> Option<int>) returns (seed: int)
    ensures seed == Seed(key, toNumber)
  {
    match key {
      case NumberKey(n) =>
        seed := n;
      case StringKey(s) =>
        var number := toNumber(s);
        if number.Some? {
          seed := number.value;
        } else {
          seed := HashCode(s);
        }
    }
  }

  /** Lines 94-134 of `_getHslComponents`: the three random numbers of the
      chosen generator. */
  method GeneratorRandoms(seed: int, options: Options) returns (random1: real, random2: real, random3: real)
    ensures (random1, random2, random3) == Randoms(seed, options)
  {
    if options.generator == "halton" {
      var key: nat := if seed < 0 then ToUint32(seed) else seed;
      var results := HaltonComponents(key);
      random1, random2, random3 := results[0] * 360.0, results[1] * 100.0, results[2] * 100.0;
    } else {
      random1 := RemInt(seed * options.primeWalkHueDistance, 359) as real * (360.0 / 359.0);
      random2 := RemInt(seed * 13, 101) as real * (100.0 / 101.0);
      random3 := RemInt(seed * 19, 103) as real * (100.0 / 103.0);
    }
  }

  /** Lines 137, 141 and 147 of `_getHslComponents`: centring, scaling and
      wrapping the hue. */
  method ComputeHue(random1: real, hueScale: real, hueCenter: real) returns (h: real)
    ensures h == FinalHue(CenterHue(random1), hueScale, hueCenter)
    ensures 0.0 <= h < 360.0
  {
    var centered := random1;
    if centered >= 180.0 {
      centered := centered - 360.0;
    }
    assert centered == CenterHue(random1);
    var scaled := RemReal(centered, 360.0) * hueScale;
    assert scaled == Scaled(RemReal(CenterHue(random1), 360.0), hueScale);
    h := RemReal(scaled + hueCenter, 360.0);
    if h < 0.0 {
      h := h + 360.0;
    }
  }

  /** Lines 143-145 and 148-149 of `_getHslComponents`: a random number
      mapped into a profile range, lifted by 100 when negative. */
  method ComputeSpread(random: real, min: real, max: real) returns (v: real)
    ensures v == Spread(random, min, max)
  {
    v := RemReal(random, 100.0) / 100.0 * (max - min) + min;
    if v < 0.0 {
      v := v + 100.0;
    }
  }

  /** `_getHslComponents` step by step: the seed, the generator, the profile
      lookup and the three components. */
  method GetHslComponents(key: Key, options: Options, profiles: map<string, Profile>,
                          toNumber: seq<CodeUnit> -> Option<int>) returns (r: Outcome<Hsl>)
    ensures r == HslComponents(key, options, profiles, toNumber)
  {
    var seed := KeySeed(key, toNumber);
    var random1, random2, random3 := GeneratorRandoms(seed, options);
    if options.colorProfile !in profiles {
      return Thrown(TypeError);
    }
    var profile := profiles[options.colorProfile];
    var h := ComputeHue(random1, options.hueScale, options.hueCenter);
    var s := ComputeSpread(random2, profile.satMin, profile.satMax);
    var l := ComputeSpread(random3, profile.lightMin, profile.lightMax);
    r := Ok(Hsl(h, s, l));
  }

  // ---------------------------------------------------------------------------
  // _getColorOutput and Vibrate

  /** What the colour output needs from outside: `Number()` on a string key,
      JS number formatting, and the HSLuv library's two conversions. */
  datatype ColorEnv = ColorEnv(
    toNumber: seq<CodeUnit> -> Option<int>,
    format: real -> string,
    hsluvToHex: (real, real, real) -> string,
    hpluvToHex: (real, real, real) -> string)

  /** `_getColorOutput`: the CSS string for an `hsl` profile, the library's
      hex string for `husl` and `huslp`, `undefined` (`None`) for any other
      space, and the "Color profile not found" error for a missing entry. */
  function ColorOutput(c: Hsl, options: Options, profiles: map<string, Profile>, env: ColorEnv): (r: Outcome<Option<string>>)
    ensures r == Thrown(ColorProfileNotFound) <==> options.colorProfile !in profiles
    ensures r.Ok? && r.value.Some? <==>
      options.colorProfile in profiles && profiles[options.colorProfile].space in {"hsl", "husl", "huslp"}
  {
    if options.colorProfile !in profiles then Thrown(ColorProfileNotFound)
    else
      var profile := profiles[options.colorProfile];
      if profile.space == "hsl" then
        Ok(Some("hsl(" + env.format(c.h) + "," + env.format(c.s) + "%," + env.format(c.l) + "%)"))
      else if profile.space == "husl" then Ok(Some(env.hsluvToHex(c.h, c.s, c.l)))
      else if profile.space == "huslp" then Ok(Some(env.hpluvToHex(c.h, c.s, c.l)))
      else Ok(None)
  }

  /** The whole of `Vibrate` against the table as it was before the call. */
  function VibrateResult(input: Key, inputOptions: Option<InputOptions>, profiles: map<string, Profile>,
                         env: ColorEnv): Outcome<Option<string>>
  {
    var options := ResolveOptions(inputOptions);
    var table := ProfilesAfterInit(profiles, inputOptions);
    match HslComponents(input, options, table, env.toNumber)
    case Thrown(e) => Thrown(e)
    case Ok(c) => ColorOutput(c, options, table, env)
  }

  /** `Vibrate` never reaches the explicit "Color profile not found" throw:
      an unknown profile name fails earlier with a `TypeError`. A known `hsl`
      profile gives `hsl(h,s%,l%)` with the hue in [0, 360). */
  lemma VibrateOutcomes(input: Key, inputOptions: Option<InputOptions>, profiles: map<string, Profile>, env: ColorEnv)
    ensures VibrateResult(input, inputOptions, profiles, env) != Thrown(ColorProfileNotFound)
    ensures var name := ResolveOptions(inputOptions).colorProfile;
      var table := ProfilesAfterInit(profiles, inputOptions);
      && (name !in table <==> VibrateResult(input, inputOptions, profiles, env) == Thrown(TypeError))
      && (name in table && table[name].space == "hsl" ==>
            exists c: Hsl :: 0.0 <= c.h < 360.0 &&
              VibrateResult(input, inputOptions, profiles, env) ==
              Ok(Some("hsl(" + env.format(c.h) + "," + env.format(c.s) + "%," + env.format(c.l) + "%)")))
  {
    var options := ResolveOptions(inputOptions);
    var table := ProfilesAfterInit(profiles, inputOptions);
    HslComponentsBounds(input, options, table, env.toNumber);
    if options.colorProfile in table {
      var c := HslComponents(input, options, table, env.toNumber).value;
      assert 0.0 <= c.h < 360.0;
    }
  }

  /** `Vibrate`: `_init`, which may write into the shared table, then the
      components and the output against the table as it then is. */
  method Vibrate(registry: ProfileRegistry, input: Key, inputOptions: Option<InputOptions>, env: ColorEnv)
    returns (r: Outcome<Option<string>>)
    modifies registry
    ensures registry.profiles == ProfilesAfterInit(old(registry.profiles), inputOptions)
    ensures r == VibrateResult(input, inputOptions, old(registry.profiles), env)
  {
    var options := Init(registry, inputOptions);
    var hsl := GetHslComponents(input, options, registry.profiles, env.toNumber);
    match hsl {
      case Thrown(e) =>
        r := Thrown(e);
      case Ok(c) =>
        r := ColorOutput(c, options, registry.profiles, env);
    }
  }
}
