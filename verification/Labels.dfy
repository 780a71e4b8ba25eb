/**
 * Label values and run-name prefixes derived from strings somebody else chose (a branch name, a commit, an
 * image tag). A string is a sequence of code points; a valid label value is ASCII, so counting code points and
 * counting bytes agree wherever the length limit decides.
 *
 * SHA-256 and Unicode lower-casing are library code: `hash` is the first eight hex digits of the digest and
 * `fold` lower-cases a code point outside ASCII.
 */
module Labels {

  const LABEL_VALUE_MAX := 63
  const LABEL_HASH_LEN := 8
  const LABEL_BASE_MAX := LABEL_VALUE_MAX - 1 - LABEL_HASH_LEN
  const NAME_PREFIX_MAX := 57
  const NAME_FALLBACK := "run"

  predicate IsHex(c: char) {
    '0' <= c <= '9' || 'a' <= c <= 'f'
  }

  type ShortHash = s: string | |s| == 8 && forall i :: 0 <= i < |s| ==> IsHex(s[i]) witness "00000000"

  predicate IsAlnum(c: char) {
    'a' <= c <= 'z' || 'A' <= c <= 'Z' || '0' <= c <= '9'
  }

  predicate IsLabelChar(c: char) {
    IsAlnum(c) || c == '-' || c == '_' || c == '.'
  }

  predicate AllLabelChars(s: string) {
    forall i :: 0 <= i < |s| ==> IsLabelChar(s[i])
  }

  /** "Syntax and character set" of Kubernetes labels: at most 63 characters, alphanumeric at both ends. */
  predicate ValidLabelValue(s: string) {
    |s| <= LABEL_VALUE_MAX && AllLabelChars(s) && (s != "" ==> IsAlnum(s[0]) && IsAlnum(s[|s| - 1]))
  }

  /** Which characters a value may begin and end with, and which it may have inside. */
  lemma ValidCharacters(c: char)
    ensures ValidLabelValue([c]) <==> 'a' <= c <= 'z' || 'A' <= c <= 'Z' || '0' <= c <= '9'
    ensures ValidLabelValue(['x', c, 'x']) <==>
              'a' <= c <= 'z' || 'A' <= c <= 'Z' || '0' <= c <= '9' || c == '-' || c == '_' || c == '.'
  {
    var s := ['x', c, 'x'];
    assert s[0] == 'x' && s[1] == c && s[2] == 'x';
    assert AllLabelChars(s) ==> IsLabelChar(s[1]);
    assert AllLabelChars([c]) ==> IsLabelChar([c][0]);
  }

  /** How long it may be. */
  lemma ValidLength(s: string)
    requires forall i :: 0 <= i < |s| ==> s[i] == 'x'
    ensures ValidLabelValue(s) <==> |s| <= 63
  {
  }

  function TrimNonAlnum(s: string): string {
    if s == "" then ""
    else if !IsAlnum(s[0]) then TrimNonAlnum(s[1..])
    else if !IsAlnum(s[|s| - 1]) then TrimNonAlnum(s[..|s| - 1])
    else s
  }

  lemma {:induction false} TrimNonAlnumShape(s: string)
    requires AllLabelChars(s)
    ensures var t := TrimNonAlnum(s);
            |t| <= |s| && AllLabelChars(t) && (t != "" ==> IsAlnum(t[0]) && IsAlnum(t[|t| - 1]))
  {
    if s == "" {
    } else if !IsAlnum(s[0]) {
      TrimNonAlnumShape(s[1..]);
    } else if !IsAlnum(s[|s| - 1]) {
      TrimNonAlnumShape(s[..|s| - 1]);
    }
  }

  /** The readable part of a repaired label value: disallowed characters become '-', then truncate, then trim. */
  function Base(raw: string): string {
    var cleaned := seq(|raw|, i requires 0 <= i < |raw| => if IsLabelChar(raw[i]) then raw[i] else '-');
    TrimNonAlnum(if |cleaned| > LABEL_BASE_MAX then cleaned[..LABEL_BASE_MAX] else cleaned)
  }

  function Sanitized(hash: string -> ShortHash, raw: string): string {
    if ValidLabelValue(raw) then raw
    else if Base(raw) == "" then hash(raw)
    else Base(raw) + "-" + hash(raw)
  }

  method SanitizeLabelValue(hash: string -> ShortHash, raw: string) returns (value: string)
    ensures value == Sanitized(hash, raw)
  {
    if ValidLabelValue(raw) {
      return raw;
    }
    var b := "";
    for i := 0 to |raw|
      invariant |b| == i
      invariant forall j :: 0 <= j < i ==> b[j] == if IsLabelChar(raw[j]) then raw[j] else '-'
    {
      b := b + [if IsLabelChar(raw[i]) then raw[i] else '-'];
    }
    assert b == seq(|raw|, i requires 0 <= i < |raw| => if IsLabelChar(raw[i]) then raw[i] else '-');
    var base := b;
    if |base| > LABEL_BASE_MAX {
      base := base[..LABEL_BASE_MAX];
    }
    base := TrimNonAlnum(base);
    if base == "" {
      return hash(raw);
    }
    return base + "-" + hash(raw);
  }

  lemma BaseShape(raw: string)
    ensures var t := Base(raw);
            |t| <= LABEL_BASE_MAX && AllLabelChars(t) && (t != "" ==> IsAlnum(t[0]) && IsAlnum(t[|t| - 1]))
  {
    var cleaned := seq(|raw|, i requires 0 <= i < |raw| => if IsLabelChar(raw[i]) then raw[i] else '-');
    TrimNonAlnumShape(if |cleaned| > LABEL_BASE_MAX then cleaned[..LABEL_BASE_MAX] else cleaned);
  }

  lemma {:induction false} TrimNonAlnumSlice(s: string) returns (d: nat)
    ensures var t := TrimNonAlnum(s);
            d + |t| <= |s| && t == s[d..d + |t|]
            && forall j :: 0 <= j < |s| && !(d <= j < d + |t|) ==> !IsAlnum(s[j])
  {
    if s == "" {
      d := 0;
    } else if !IsAlnum(s[0]) {
      d := TrimNonAlnumSlice(s[1..]);
      assert forall j :: 0 < j < |s| ==> s[j] == s[1..][j - 1];
      d := d + 1;
    } else if !IsAlnum(s[|s| - 1]) {
      d := TrimNonAlnumSlice(s[..|s| - 1]);
      assert forall j :: 0 <= j < |s| - 1 ==> s[j] == s[..|s| - 1][j];
    } else {
      d := 0;
    }
  }

  /**
   * `base` reads off `raw` from position `d`: character by character, with '-' for each one a label cannot have; and
   * among the first 54 it leaves out no letter or digit.
   */
  ghost predicate ReadsFrom(raw: string, base: string, d: nat) {
    && d + |base| <= |raw| && d + |base| <= 54
    && (forall i :: 0 <= i < |base| ==> base[i] == if IsLabelChar(raw[d + i]) then raw[d + i] else '-')
    && forall j :: 0 <= j < |raw| && j < 54 && !(d <= j < d + |base|) ==> !IsAlnum(raw[j])
  }

  /** A repaired value is the readable part of its input, a dash and the hash; the hash alone if nothing is readable. */
  lemma RepairedReads(hash: string -> ShortHash, raw: string)
    requires !ValidLabelValue(raw)
    ensures exists base, d: nat ::
              && ReadsFrom(raw, base, d)
              && Sanitized(hash, raw) == if base == "" then hash(raw) else base + "-" + hash(raw)
  {
    var cleaned := seq(|raw|, i requires 0 <= i < |raw| => if IsLabelChar(raw[i]) then raw[i] else '-');
    var cut := if |cleaned| > LABEL_BASE_MAX then cleaned[..LABEL_BASE_MAX] else cleaned;
    var d := TrimNonAlnumSlice(cut);
    forall j | 0 <= j < |raw| && j < 54 && !(d <= j < d + |Base(raw)|) ensures !IsAlnum(raw[j]) {
      assert cut[j] == cleaned[j];
    }
    assert ReadsFrom(raw, Base(raw), d);
  }

  /** Whatever the input, the value is one the API server accepts, and sanitising it again changes nothing. */
  lemma SanitizedIsValid(hash: string -> ShortHash, raw: string)
    ensures ValidLabelValue(Sanitized(hash, raw))
    ensures ValidLabelValue(raw) ==> Sanitized(hash, raw) == raw
    ensures Sanitized(hash, Sanitized(hash, raw)) == Sanitized(hash, raw)
  {
    BaseShape(raw);
    var h: string := hash(raw);
    assert forall i :: 0 <= i < |h| ==> IsHex(h[i]) && IsAlnum(h[i]);
  }

  /** A repaired value always ends in the eight hash characters of the original. */
  lemma RepairedEndsInHash(hash: string -> ShortHash, raw: string)
    requires !ValidLabelValue(raw)
    ensures var v := Sanitized(hash, raw);
            |v| >= LABEL_HASH_LEN && v[|v| - LABEL_HASH_LEN..] == hash(raw)
    ensures var v := Sanitized(hash, raw);
            if Base(raw) == "" then |v| == LABEL_HASH_LEN
            else |v| == |Base(raw)| + 1 + LABEL_HASH_LEN && v[..|Base(raw)|] == Base(raw)
  {
  }

  /**
   * Two repaired values collide only on equal hashes and equal readable parts; a valid value collides with a repaired
   * one only by being that repaired form literally.
   */
  predicate Collide(hash: string -> ShortHash, a: string, b: string) {
    || a == b
    || (!ValidLabelValue(a) && !ValidLabelValue(b) && hash(a) == hash(b) && Base(a) == Base(b))
    || (ValidLabelValue(a) && !ValidLabelValue(b) && a == Sanitized(hash, b))
    || (ValidLabelValue(b) && !ValidLabelValue(a) && b == Sanitized(hash, a))
  }

  /** Exactly when two inputs share a label value. */
  lemma SanitizedCollision(hash: string -> ShortHash, a: string, b: string)
    ensures Sanitized(hash, a) == Sanitized(hash, b) <==> Collide(hash, a, b)
  {
    if !ValidLabelValue(a) && !ValidLabelValue(b) && Sanitized(hash, a) == Sanitized(hash, b) {
      RepairedEndsInHash(hash, a);
      RepairedEndsInHash(hash, b);
    }
  }

  // ---- run-name prefixes ----

  predicate IsNameChar(c: char) {
    'a' <= c <= 'z' || '0' <= c <= '9' || c == '-'
  }

  predicate AllNameChars(s: string) {
    forall i :: 0 <= i < |s| ==> IsNameChar(s[i])
  }

  predicate IsLowerAlnum(c: char) {
    'a' <= c <= 'z' || '0' <= c <= '9'
  }

  function Lower(fold: char -> char, c: char): char {
    if 'A' <= c <= 'Z' then (c as int + 32) as char else if c as int < 128 then c else fold(c)
  }

  function NameChar(fold: char -> char, c: char): char {
    var l := Lower(fold, c);
    if IsNameChar(l) then l else '-'
  }

  function TrimLeftDash(s: string): (r: string)
    ensures |r| <= |s| && (r != "" ==> r[0] != '-')
    ensures AllNameChars(s) ==> AllNameChars(r)
  {
    if s != "" && s[0] == '-' then TrimLeftDash(s[1..]) else s
  }

  function TrimRightDash(s: string): (r: string)
    ensures |r| <= |s| && (r != "" ==> r[0] == s[0] && r[|r| - 1] != '-')
    ensures AllNameChars(s) ==> AllNameChars(r)
  {
    if s != "" && s[|s| - 1] == '-' then TrimRightDash(s[..|s| - 1]) else s
  }

  function NamePrefix(fold: char -> char, raw: string): string {
    var base := TrimLeftDash(seq(|raw|, i requires 0 <= i < |raw| => NameChar(fold, raw[i])));
    var base := TrimRightDash(if |base| > NAME_PREFIX_MAX - 1 then base[..NAME_PREFIX_MAX - 1] else base);
    (if base == "" then NAME_FALLBACK else base) + "-"
  }

  method GenerateNamePrefix(fold: char -> char, raw: string) returns (prefix: string)
    ensures prefix == NamePrefix(fold, raw)
  {
    var b := "";
    for i := 0 to |raw|
      invariant |b| == i
      invariant forall j :: 0 <= j < i ==> b[j] == NameChar(fold, raw[j])
    {
      var l := Lower(fold, raw[i]);
      b := b + [if IsNameChar(l) then l else '-'];
    }
    assert b == seq(|raw|, i requires 0 <= i < |raw| => NameChar(fold, raw[i]));
    var base := TrimLeftDash(b);
    if |base| > NAME_PREFIX_MAX - 1 {
      base := base[..NAME_PREFIX_MAX - 1];
    }
    base := TrimRightDash(base);
    if base == "" {
      base := NAME_FALLBACK;
    }
    return base + "-";
  }

  predicate WellFormedPrefix(p: string) {
    && 2 <= |p| <= NAME_PREFIX_MAX
    && AllNameChars(p)
    && IsLowerAlnum(p[0]) && IsLowerAlnum(p[|p| - 2]) && p[|p| - 1] == '-'
  }

  lemma NamePrefixWellFormed(fold: char -> char, raw: string)
    ensures WellFormedPrefix(NamePrefix(fold, raw))
  {
    var cleaned := seq(|raw|, i requires 0 <= i < |raw| => NameChar(fold, raw[i]));
    assert AllNameChars(cleaned);
    var base := TrimLeftDash(cleaned);
    var cut := if |base| > NAME_PREFIX_MAX - 1 then base[..NAME_PREFIX_MAX - 1] else base;
    assert AllNameChars(cut);
    var stem := TrimRightDash(cut);
    assert NAME_FALLBACK == ['r', 'u', 'n'];
  }

  lemma {:induction false} TrimLeftDashSlice(s: string) returns (d: nat)
    ensures d <= |s| && TrimLeftDash(s) == s[d..] && forall j :: 0 <= j < d ==> s[j] == '-'
  {
    if s != "" && s[0] == '-' {
      d := TrimLeftDashSlice(s[1..]);
      assert forall j :: 0 < j < |s| ==> s[j] == s[1..][j - 1];
      d := d + 1;
    } else {
      d := 0;
    }
  }

  lemma {:induction false} TrimRightDashSlice(s: string)
    ensures var r := TrimRightDash(s);
            |r| <= |s| && r == s[..|r|] && forall j :: |r| <= j < |s| ==> s[j] == '-'
  {
    if s != "" && s[|s| - 1] == '-' {
      TrimRightDashSlice(s[..|s| - 1]);
      assert forall j :: 0 <= j < |s| - 1 ==> s[j] == s[..|s| - 1][j];
    }
  }

  /** How one character shows in a run name: small letters, digits and '-' as they are, capitals as small letters. */
  predicate ShowsAs(fold: char -> char, c: char, shown: char) {
    if 'a' <= c <= 'z' || '0' <= c <= '9' || c == '-' then shown == c
    else if 'A' <= c <= 'Z' then shown as int == c as int + 32
    else if c as int < 128 then shown == '-'
    else shown == if IsNameChar(fold(c)) then fold(c) else '-'
  }

  /** `stem` shows `raw` from position `d`, at most 56 characters, leaving out only dashes there and before. */
  ghost predicate Shows(fold: char -> char, raw: string, stem: string, d: nat) {
    && d + |stem| <= |raw| && |stem| <= 56
    && (forall j :: 0 <= j < d ==> ShowsAs(fold, raw[j], '-'))
    && (forall i :: 0 <= i < |stem| ==> ShowsAs(fold, raw[d + i], stem[i]))
    && forall j :: d + |stem| <= j < |raw| && j < d + 56 ==> ShowsAs(fold, raw[j], '-')
  }

  lemma StemSlice(cleaned: string) returns (stem: string, d: nat)
    ensures var base := TrimLeftDash(cleaned);
            stem == TrimRightDash(if |base| > NAME_PREFIX_MAX - 1 then base[..NAME_PREFIX_MAX - 1] else base)
    ensures d + |stem| <= |cleaned| && |stem| <= 56 && stem == cleaned[d..d + |stem|]
    ensures forall j :: 0 <= j < d ==> cleaned[j] == '-'
    ensures forall j :: d + |stem| <= j < |cleaned| && j < d + 56 ==> cleaned[j] == '-'
  {
    d := TrimLeftDashSlice(cleaned);
    var base := TrimLeftDash(cleaned);
    var cut := if |base| > NAME_PREFIX_MAX - 1 then base[..NAME_PREFIX_MAX - 1] else base;
    TrimRightDashSlice(cut);
    stem := TrimRightDash(cut);
    assert forall j :: 0 <= j < |cut| ==> cut[j] == cleaned[d + j];
    forall j | d + |stem| <= j < |cleaned| && j < d + 56 ensures cleaned[j] == '-' {
      assert cut[j - d] == cleaned[j];
    }
  }

  /** A prefix shows its input, followed by a dash; the fallback stands in only when there is nothing to show. */
  lemma NamePrefixShows(fold: char -> char, raw: string)
    ensures exists stem, d: nat ::
              && Shows(fold, raw, stem, d)
              && NamePrefix(fold, raw) == (if stem == "" then NAME_FALLBACK else stem) + "-"
  {
    var cleaned := seq(|raw|, i requires 0 <= i < |raw| => NameChar(fold, raw[i]));
    forall i | 0 <= i < |raw| ensures ShowsAs(fold, raw[i], cleaned[i]) {}
    var stem, d := StemSlice(cleaned);
    assert forall i :: 0 <= i < |stem| ==> stem[i] == cleaned[d + i];
    assert Shows(fold, raw, stem, d);
  }

  /** A prefix is a fixed point: a run name never drifts when it is derived from an earlier prefix. */
  lemma NamePrefixIdempotent(fold: char -> char, raw: string)
    ensures NamePrefix(fold, NamePrefix(fold, raw)) == NamePrefix(fold, raw)
  {
    var p := NamePrefix(fold, raw);
    NamePrefixWellFormed(fold, raw);
    assert seq(|p|, i requires 0 <= i < |p| => NameChar(fold, p[i])) == p;
    var stem := p[..|p| - 1];
    assert p == stem + "-";
    assert TrimLeftDash(p) == p;
    var cut := if |p| > NAME_PREFIX_MAX - 1 then p[..NAME_PREFIX_MAX - 1] else p;
    assert cut == stem || (cut == p && cut[..|cut| - 1] == stem);
    assert TrimRightDash(stem) == stem;
    assert TrimRightDash(cut) == stem;
  }

  /** Section 2.1 of RFC 1123, in the lower-case form Kubernetes uses. */
  predicate ValidHostLabel(s: string) {
    && 1 <= |s| <= 63
    && AllNameChars(s)
    && IsLowerAlnum(s[0]) && IsLowerAlnum(s[|s| - 1])
  }

  /** The API server appends five random lower-case alphanumerics to a prefix. */
  lemma GeneratedNameIsHostLabel(fold: char -> char, raw: string, suffix: string)
    requires |suffix| == 5 && forall i :: 0 <= i < |suffix| ==> IsLowerAlnum(suffix[i])
    ensures ValidHostLabel(NamePrefix(fold, raw) + suffix)
  {
    NamePrefixWellFormed(fold, raw);
    var s := NamePrefix(fold, raw) + suffix;
    assert s[|s| - 1] == suffix[4];
  }
}
