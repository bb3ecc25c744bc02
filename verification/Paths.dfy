/**
 Canonical media paths: how a path is made from an uploaded file name, and how
 it is recognised again. Lengths are in characters for the path and in UTF-8
 bytes (section 3 of RFC 3629) for the leaf.
 */
module Paths {
  import opened Wrappers

  const FIELD_MAX: nat := 255
  const LEAF_MAX_BYTES: nat := 255
  const EXTENSIONS: set<string> := {".jpg", ".png", ".gif", ".webp", ".bmp", ".tif"}
  const DERIVATIVES: set<string> := {"thumbnail", "standard", "square"}
  const RESERVED: set<string> := {
    "CON", "PRN", "AUX", "NUL",
    "COM1", "COM2", "COM3", "COM4", "COM5", "COM6", "COM7", "COM8", "COM9",
    "LPT1", "LPT2", "LPT3", "LPT4", "LPT5", "LPT6", "LPT7", "LPT8", "LPT9"}

  // ---------------------------------------------------------------- characters

  /** Category Cc. */
  predicate IsControl(c: char) {
    c as int < 32 || 127 <= c as int < 160
  }

  predicate ControlFree(s: string) {
    forall c :: c in s ==> !IsControl(c)
  }

  predicate Ascii(s: string) {
    forall c :: c in s ==> c as int < 128
  }

  /** Characters that not every file system takes. */
  predicate IsInvalid(c: char) {
    c in "<>:\"/\\|?*"
  }

  predicate InvalidFree(s: string) {
    forall c :: c in s ==> !IsInvalid(c)
  }

  function Utf8Length(c: char): nat {
    var n := c as int;
    if n < 0x80 then 1 else if n < 0x800 then 2 else if n < 0x10000 then 3 else 4
  }

  function Bytes(s: string): nat {
    if s == [] then 0 else Bytes(s[..|s| - 1]) + Utf8Length(s[|s| - 1])
  }

  function Portable(s: string): (r: string)
    ensures |r| == |s| && InvalidFree(r)
    ensures forall i :: 0 <= i < |s| ==> if s[i] in "<>:\"/\\|?*" then r[i] == '_' else r[i] == s[i]
  {
    seq(|s|, i requires 0 <= i < |s| => if IsInvalid(s[i]) then '_' else s[i])
  }

  function UpperChar(c: char): char {
    if 'a' <= c <= 'z' then (c as int - 32) as char else c
  }

  function AsciiUpper(s: string): string {
    seq(|s|, i requires 0 <= i < |s| => UpperChar(s[i]))
  }

  /** Normalization form C and upper-casing, of which only the laws below are used. */
  datatype Unicode = Unicode(nfc: string -> string, upper: string -> string)

  /** Section 1.4 of Unicode Standard Annex #15, and that no ASCII character composes with what comes before it. */
  ghost predicate Lawful(u: Unicode) {
    && (forall s {:trigger u.nfc(u.nfc(s))} :: u.nfc(u.nfc(s)) == u.nfc(s))
    && (forall s, i: nat, j: nat {:trigger u.nfc(s[i..j])} :: i <= j <= |s| && u.nfc(s) == s ==> u.nfc(s[i..j]) == s[i..j])
    && (forall s {:trigger u.nfc(Portable(s))} :: u.nfc(s) == s ==> u.nfc(Portable(s)) == Portable(s))
    && (forall s, t {:trigger u.nfc(s + t)} :: u.nfc(s) == s && Ascii(t) ==> u.nfc(s + t) == s + t)
    && (forall s {:trigger ControlFree(u.nfc(s))} :: ControlFree(s) ==> ControlFree(u.nfc(s)))
    && (forall s {:trigger NoSlash(u.nfc(s))} :: NoSlash(s) ==> NoSlash(u.nfc(s)))
    && (forall s {:trigger u.upper(s)} :: Ascii(s) ==> u.upper(s) == AsciiUpper(s))
  }

  predicate NoSlash(s: string) {
    '/' !in s && '\\' !in s
  }

  // ---------------------------------------------------------------- splitting

  /** Without what precedes the last slash of either kind. */
  function Basename(s: string): (r: string)
    ensures NoSlash(r)
  {
    if s == [] then []
    else
      var c := s[|s| - 1];
      if c == '/' || c == '\\' then [] else Basename(s[..|s| - 1]) + [c]
  }

  lemma {:induction false} BasenameIsSuffix(s: string) returns (i: nat)
    ensures i <= |s| && Basename(s) == s[i..]
  {
    i := |s|;
    if s != [] && s[|s| - 1] != '/' && s[|s| - 1] != '\\' {
      i := BasenameIsSuffix(s[..|s| - 1]);
      assert s[..|s| - 1][i..] + [s[|s| - 1]] == s[i..];
    }
  }

  /** The position of the last occurrence, or none. */
  function RFind(s: string, c: char): (r: Option<nat>)
    ensures r.None? ==> c !in s
    ensures r.Some? ==> r.value < |s| && s[r.value] == c && c !in s[r.value + 1..]
  {
    if s == [] then None
    else if s[|s| - 1] == c then Some(|s| - 1)
    else
      var r := RFind(s[..|s| - 1], c);
      assert r.Some? ==> s[r.value + 1..] == s[..|s| - 1][r.value + 1..] + [s[|s| - 1]];
      assert s == s[..|s| - 1] + [s[|s| - 1]];
      r
  }

  predicate IsTrim(c: char) {
    c == ' ' || c == '.'
  }

  function StripLeft(s: string): (r: string)
    ensures r != [] ==> !IsTrim(r[0])
  {
    if s != [] && IsTrim(s[0]) then StripLeft(s[1..]) else s
  }

  lemma {:induction false} StripLeftIsSuffix(s: string) returns (i: nat)
    ensures i <= |s| && StripLeft(s) == s[i..]
  {
    i := 0;
    if s != [] && IsTrim(s[0]) {
      i := StripLeftIsSuffix(s[1..]);
      assert s[1..][i..] == s[i + 1..];
      i := i + 1;
    }
  }

  function StripRight(s: string): (r: string)
    ensures r <= s
    ensures r != [] ==> !IsTrim(r[|r| - 1])
  {
    if s != [] && IsTrim(s[|s| - 1]) then StripRight(s[..|s| - 1]) else s
  }

  function Strip(s: string): string {
    StripRight(StripLeft(s))
  }

  /** Up to the first dot. */
  function FirstPart(s: string): string {
    if s == [] || s[0] == '.' then [] else [s[0]] + FirstPart(s[1..])
  }

  /** Stem and extension at the last dot; dots at the beginning do not count. */
  function SplitExt(leaf: string): (string, string) {
    match RFind(leaf, '.')
    case None => (leaf, "")
    case Some(i) => if forall k :: 0 <= k < i ==> leaf[k] == '.' then (leaf, "") else (leaf[..i], leaf[i..])
  }

  // ---------------------------------------------------------------- from a file name to a leaf

  function Filter(s: string): string {
    if s == [] then [] else if IsControl(s[0]) then Filter(s[1..]) else [s[0]] + Filter(s[1..])
  }

  function Sanitize(u: Unicode, filename: string): string {
    var s := Filter(u.nfc(Basename(filename)));
    if |s| <= 255 then s else s[..255]
  }

  predicate Usable(u: Unicode, stem: string) {
    stem != [] && stem != "." && stem != ".." && u.upper(FirstPart(stem)) !in RESERVED
  }

  function PhysicalStem(u: Unicode, filename: string): string {
    var base := Sanitize(u, filename);
    var stem := match RFind(base, '.') case Some(i) => base[..i] case None => base;
    Strip(Portable(stem))
  }

  /** The longest beginning within both limits. */
  function Fitting(stem: string, characters: int, bytes: int): (n: nat)
    ensures n <= |stem|
    ensures n > 0 ==> n <= characters && Bytes(stem[..n]) <= bytes
  {
    if stem == [] then 0
    else
      var init := stem[..|stem| - 1];
      var n := Fitting(init, characters, bytes);
      if n == |init| && |stem| <= characters && Bytes(stem) <= bytes then
        assert stem[..|stem|] == stem;
        |stem|
      else
        assert stem[..n] == init[..n];
        n
  }

  // ---------------------------------------------------------------- uuids

  predicate IsHex(c: char) {
    '0' <= c <= '9' || 'a' <= c <= 'f'
  }

  /** 32 lower-case hexadecimal digits. */
  predicate IsUuid(h: string) {
    |h| == 32 && forall c :: c in h ==> IsHex(c)
  }

  function UuidText(h: string): string
    requires IsUuid(h)
  {
    h[..8] + "-" + h[8..12] + "-" + h[12..16] + "-" + h[16..20] + "-" + h[20..]
  }

  function UuidOf(text: string): Option<string> {
    if |text| != 36 then None
    else
      var h := text[..8] + text[9..13] + text[14..18] + text[19..23] + text[24..];
      if IsUuid(h) && UuidText(h) == text then Some(h) else None
  }

  // ---------------------------------------------------------------- recognition

  function OriginalDirectory(h: string): string
    requires IsUuid(h)
  {
    "originals/" + UuidText(h)
  }

  function DerivativeDirectory(h: string): string
    requires IsUuid(h)
  {
    "derivatives/" + UuidText(h)
  }

  predicate ValidOriginalLeaf(u: Unicode, h: string, leaf: string)
    requires IsUuid(h)
  {
    leaf != "" &&
    var n := u.nfc(leaf);
    && ControlFree(n) && InvalidFree(n)
    && var (stem, extension) := SplitExt(n);
       && extension in EXTENSIONS
       && stem == Strip(stem) && Usable(u, stem)
       && |OriginalDirectory(h)| + 1 + |n| <= FIELD_MAX
       && Bytes(n) <= LEAF_MAX_BYTES
  }

  datatype Kind = Original | Thumbnail

  datatype Recognised = Recognised(kind: Kind, uuid: string, directory: string)

  function Split(s: string): (parts: seq<string>)
    ensures parts != []
  {
    if s == [] then [[]]
    else
      var rest := Split(s[1..]);
      if s[0] == '/' then [[]] + rest else [[s[0]] + rest[0]] + rest[1..]
  }

  function CanonicalMediaPath(u: Unicode, name: string): Option<Recognised> {
    var parts := Split(name);
    if |parts| != 3 then None
    else
      match UuidOf(parts[1])
      case None => None
      case Some(h) =>
        var (stem, extension) := SplitExt(parts[2]);
        if parts[0] == "originals" && ValidOriginalLeaf(u, h, parts[2]) then
          Some(Recognised(Original, h, OriginalDirectory(h)))
        else if parts[0] == "derivatives" && stem in DERIVATIVES && extension in EXTENSIONS then
          Some(Recognised(Thumbnail, h, DerivativeDirectory(h)))
        else None
  }

  // ---------------------------------------------------------------- construction

  const PREFIX_LENGTH: nat := 47

  function Fallback(h: string): string
    requires IsUuid(h)
  {
    "image-" + h[..12]
  }

  /** The stem cut to what the path and the leaf have room for. */
  function Fit(stem: string, extension: string): string {
    Strip(stem[..Fitting(stem, FIELD_MAX - PREFIX_LENGTH - |extension|, LEAF_MAX_BYTES - Bytes(extension))])
  }

  function StemFor(u: Unicode, h: string, filename: string, extension: string): string
    requires IsUuid(h)
  {
    var physical := PhysicalStem(u, filename);
    var stem := Fit(if Usable(u, physical) then physical else Fallback(h), extension);
    if Usable(u, stem) then stem else Fit(Fallback(h), extension)
  }

  /** Character by character, until the next one would not fit. */
  method FitStem(stem: string, extension: string) returns (fitted: string)
    ensures fitted == Fit(stem, extension)
  {
    var characterLimit, byteLimit := FIELD_MAX - PREFIX_LENGTH - |extension|, LEAF_MAX_BYTES - Bytes(extension);
    var n, byteCount := 0, 0;
    while n < |stem|
      invariant 0 <= n <= |stem| && byteCount == Bytes(stem[..n])
      invariant Fitting(stem[..n], characterLimit, byteLimit) == n
    {
      OneMoreFits(stem, n, characterLimit, byteLimit);
      if n >= characterLimit || byteCount + Utf8Length(stem[n]) > byteLimit {
        CutPrefix(stem, n, |stem|, characterLimit, byteLimit);
        break;
      }
      byteCount := byteCount + Utf8Length(stem[n]);
      n := n + 1;
    }
    assert stem[..|stem|] == stem;
    return Strip(stem[..n]);
  }

  lemma OneMoreFits(stem: string, n: nat, characters: int, bytes: int)
    requires n < |stem| && Fitting(stem[..n], characters, bytes) == n
    ensures Bytes(stem[..n + 1]) == Bytes(stem[..n]) + Utf8Length(stem[n])
    ensures Fitting(stem[..n + 1], characters, bytes) ==
            if n < characters && Bytes(stem[..n]) + Utf8Length(stem[n]) <= bytes then n + 1 else n
  {
    assert stem[..n + 1][..n] == stem[..n];
  }

  /** Once a character did not fit, no later one is taken. */
  lemma {:induction false} CutPrefix(stem: string, n: nat, k: nat, characters: int, bytes: int)
    requires n < k <= |stem| && Fitting(stem[..n + 1], characters, bytes) == n
    ensures Fitting(stem[..k], characters, bytes) == n
    decreases k
  {
    if k > n + 1 {
      CutPrefix(stem, n, k - 1, characters, bytes);
      assert stem[..k][..k - 1] == stem[..k - 1];
    }
  }

  /**
   Build the path of an original. For every file name without control
   characters and every allowed extension this succeeds, and the path is
   recognised as the same uuid's original.
   */
  method CanonicalOriginalPath(u: Unicode, h: string, filename: string, extension: string)
    returns (r: Result<string, string>)
    requires IsUuid(h)
    ensures extension !in EXTENSIONS ==> r == Err("invalid_original_extension")
    ensures r.Ok? ==> r.value == OriginalDirectory(h) + "/" + (StemFor(u, h, filename, extension) + extension)
    ensures r.Ok? ==> ValidOriginalLeaf(u, h, StemFor(u, h, filename, extension) + extension)
    ensures Lawful(u) && ControlFree(filename) && extension in EXTENSIONS ==>
              && r.Ok? && |r.value| <= FIELD_MAX
              && Bytes(StemFor(u, h, filename, extension) + extension) <= LEAF_MAX_BYTES
              && CanonicalMediaPath(u, r.value) == Some(Recognised(Original, h, OriginalDirectory(h)))
  {
    if extension !in EXTENSIONS {
      return Err("invalid_original_extension");
    }
    var prefix := OriginalDirectory(h) + "/";
    var stem := PhysicalStem(u, filename);
    if !Usable(u, stem) {
      stem := Fallback(h);
    }
    stem := FitStem(stem, extension);
    if !Usable(u, stem) {
      stem := FitStem(Fallback(h), extension);
    }
    var leaf := stem + extension;
    if Lawful(u) && ControlFree(filename) { LeafIsValid(u, h, filename, extension); }
    if !ValidOriginalLeaf(u, h, leaf) {
      return Err("invalid_original_filename");
    }
    return Ok(prefix + leaf);
  }

  // ---------------------------------------------------------------- parts of strings

  lemma PartFree(s: string, i: nat, j: nat)
    requires i <= j <= |s|
    ensures ControlFree(s) ==> ControlFree(s[i..j])
    ensures InvalidFree(s) ==> InvalidFree(s[i..j])
    ensures NoSlash(s) ==> NoSlash(s[i..j])
    ensures Ascii(s) ==> Ascii(s[i..j])
  {
    forall c | c in s[i..j] ensures c in s {
      var k :| 0 <= k < j - i && s[i..j][k] == c;
      assert s[i + k] == c;
    }
  }

  lemma {:induction false} BytesPrefix(s: string, j: nat)
    requires j <= |s|
    ensures Bytes(s[..j]) <= Bytes(s)
    decreases |s|
  {
    if j < |s| {
      assert s[..|s| - 1][..j] == s[..j];
      BytesPrefix(s[..|s| - 1], j);
    } else {
      assert s[..j] == s;
    }
  }

  lemma {:induction false} BytesSum(s: string, t: string)
    ensures Bytes(s + t) == Bytes(s) + Bytes(t)
    decreases |t|
  {
    if t == [] {
      assert s + t == s;
    } else {
      assert (s + t)[..|s + t| - 1] == s + t[..|t| - 1];
      BytesSum(s, t[..|t| - 1]);
    }
  }

  lemma BytesPart(s: string, i: nat, j: nat)
    requires i <= j <= |s|
    ensures Bytes(s[i..j]) <= Bytes(s)
  {
    assert s == s[..i] + s[i..];
    BytesSum(s[..i], s[i..]);
    BytesPrefix(s[i..], j - i);
    assert s[i..][..j - i] == s[i..j];
  }

  /** A stripped string is a part of the string, and has no blank or dot at its ends. */
  lemma StripIsPart(s: string) returns (i: nat, j: nat)
    ensures i <= j <= |s| && Strip(s) == s[i..j]
    ensures Strip(s) != [] ==> !IsTrim(Strip(s)[0]) && !IsTrim(Strip(s)[|Strip(s)| - 1])
  {
    i := StripLeftIsSuffix(s);
    j := i + |Strip(s)|;
    assert s[i..][..j - i] == s[i..j];
  }

  lemma StripTwice(s: string)
    ensures Strip(Strip(s)) == Strip(s)
  {
    var i, j := StripIsPart(s);
    Trimmed(Strip(s));
  }

  lemma Trimmed(s: string)
    requires s != [] ==> !IsTrim(s[0]) && !IsTrim(s[|s| - 1])
    ensures Strip(s) == s
  {
  }

  // ---------------------------------------------------------------- good stems

  /** Portable, control-free, normalized and stripped. */
  ghost predicate GoodStem(u: Unicode, s: string) {
    ControlFree(s) && InvalidFree(s) && u.nfc(s) == s && Strip(s) == s
  }

  lemma PartStaysGood(u: Unicode, s: string, i: nat, j: nat)
    requires Lawful(u) && i <= j <= |s| && ControlFree(s) && InvalidFree(s) && u.nfc(s) == s
    ensures GoodStem(u, Strip(s[i..j]))
  {
    var t := s[i..j];
    PartFree(s, i, j);
    assert u.nfc(t) == t;
    var a, b := StripIsPart(t);
    PartFree(t, a, b);
    StripTwice(t);
  }

  lemma {:induction false} FilterNothing(s: string)
    requires ControlFree(s)
    ensures Filter(s) == s
  {
    if s != [] {
      PartFree(s, 1, |s|);
      FilterNothing(s[1..]);
      assert s[0] in s && [s[0]] + s[1..] == s;
    }
  }

  lemma SanitizedIsGood(u: Unicode, filename: string)
    requires Lawful(u) && ControlFree(filename)
    ensures var s := Sanitize(u, filename);
            ControlFree(s) && NoSlash(s) && u.nfc(s) == s && |s| <= 255
  {
    var i := BasenameIsSuffix(filename);
    assert filename[i..] == filename[i..|filename|];
    PartFree(filename, i, |filename|);
    var n := u.nfc(Basename(filename));
    FilterNothing(n);
    if |n| > 255 {
      PartFree(n, 0, 255);
      assert n[0..255] == n[..255];
    }
  }

  lemma {:induction false} BasenameOfNoSlash(s: string)
    requires NoSlash(s)
    ensures Basename(s) == s
  {
    if s != [] {
      PartFree(s, 0, |s| - 1);
      assert s[..|s| - 1] == s[0..|s| - 1];
      BasenameOfNoSlash(s[..|s| - 1]);
      assert s[|s| - 1] in s && s[..|s| - 1] + [s[|s| - 1]] == s;
    }
  }

  /** Sanitizing a sanitized name changes nothing. */
  lemma SanitizeIsIdempotent(u: Unicode, filename: string)
    requires Lawful(u) && ControlFree(filename)
    ensures Sanitize(u, Sanitize(u, filename)) == Sanitize(u, filename)
  {
    var s := Sanitize(u, filename);
    SanitizedIsGood(u, filename);
    BasenameOfNoSlash(s);
    FilterNothing(s);
  }

  /**
   It does with control characters: one that keeps a letter and a combining mark
   apart is filtered out only after they could have been composed.
   */
  lemma ControlsBreakIdempotence(u: Unicode)
    requires u.nfc(['e', 1 as char, 0x301 as char]) == ['e', 1 as char, 0x301 as char]
    requires u.nfc(['e', 0x301 as char]) == [0xE9 as char]
    ensures Sanitize(u, ['e', 1 as char, 0x301 as char]) == ['e', 0x301 as char]
    ensures Sanitize(u, Sanitize(u, ['e', 1 as char, 0x301 as char])) == [0xE9 as char]
  {
    var s := ['e', 1 as char, 0x301 as char];
    BasenameOfNoSlash(s);
    assert s[1..] == [1 as char, 0x301 as char] && s[1..][1..] == [0x301 as char] && s[1..][1..][1..] == [];
    assert Filter(s) == ['e'] + Filter(s[1..]) && Filter(s[1..]) == Filter(s[1..][1..]);
    var t := ['e', 0x301 as char];
    BasenameOfNoSlash(t);
    FilterNothing([0xE9 as char]);
  }

  lemma PortableStaysControlFree(s: string)
    requires ControlFree(s)
    ensures ControlFree(Portable(s))
  {
    forall c | c in Portable(s) ensures !IsControl(c) {
      var i :| 0 <= i < |s| && Portable(s)[i] == c;
      assert s[i] in s;
    }
  }

  lemma PhysicalStemIsGood(u: Unicode, filename: string)
    requires Lawful(u) && ControlFree(filename)
    ensures GoodStem(u, PhysicalStem(u, filename))
  {
    var base := Sanitize(u, filename);
    SanitizedIsGood(u, filename);
    var r := RFind(base, '.');
    var stem := match r case Some(i) => base[..i] case None => base;
    var n := match r case Some(i) => i case None => |base|;
    assert stem == base[0..n];
    PartFree(base, 0, n);
    assert u.nfc(stem) == stem;
    PortableStaysControlFree(stem);
    var q := Portable(stem);
    assert q[0..|q|] == q;
    PartStaysGood(u, q, 0, |q|);
  }

  lemma FallbackIsGood(u: Unicode, h: string)
    requires Lawful(u) && IsUuid(h)
    ensures var f := Fallback(h); GoodStem(u, f) && Usable(u, f) && Ascii(f) && |f| == 18
  {
    var f := Fallback(h);
    FallbackCharacters(h);
    NfcOfAscii(u, f);
    Trimmed(f);
    NoDots(f);
    UpperOfFallback(f);
  }

  lemma FallbackCharacters(h: string)
    requires IsUuid(h)
    ensures var f := Fallback(h);
            && |f| == 18 && f[0] == 'i' && IsHex(f[17]) && '.' !in f && Ascii(f) && ControlFree(f) && InvalidFree(f)
  {
    var f := Fallback(h);
    forall k | 0 <= k < 18 ensures IsHex(f[k]) || f[k] in "image-" {
      if k >= 6 { assert f[k] == h[k - 6] && h[k - 6] in h; }
    }
    assert f[17] == h[11] && h[11] in h;
  }

  lemma NfcOfAscii(u: Unicode, s: string)
    requires Lawful(u) && Ascii(s)
    ensures u.nfc(s) == s
  {
    var n := u.nfc("");
    assert u.nfc(u.nfc("")) == n;
    assert n[0..0] == "" && u.nfc(n[0..0]) == n[0..0];
    assert "" + s == s && u.nfc("" + s) == "" + s;
  }

  /** No reserved stem is this long. */
  lemma UpperOfFallback(f: string)
    requires |f| == 18
    ensures AsciiUpper(f) !in RESERVED
  {
    assert |AsciiUpper(f)| == 18;
  }

  lemma {:induction false} NoDots(s: string)
    requires '.' !in s
    ensures FirstPart(s) == s
  {
    if s != [] {
      forall c | c in s[1..] ensures c in s { }
      NoDots(s[1..]);
      assert s[0] in s && [s[0]] + s[1..] == s;
    }
  }

  lemma FitIsGood(u: Unicode, stem: string, extension: string)
    requires Lawful(u) && GoodStem(u, stem) && |extension| <= 5 && Bytes(extension) == |extension|
    ensures var f := Fit(stem, extension);
            && GoodStem(u, f) && |f| <= FIELD_MAX - PREFIX_LENGTH - |extension|
            && Bytes(f) <= LEAF_MAX_BYTES - Bytes(extension)
  {
    var n := Fitting(stem, FIELD_MAX - PREFIX_LENGTH - |extension|, LEAF_MAX_BYTES - Bytes(extension));
    assert stem[..n] == stem[0..n];
    PartStaysGood(u, stem, 0, n);
    var i, j := StripIsPart(stem[..n]);
    BytesPart(stem[..n], i, j);
    if n == 0 { assert stem[..0] == []; }
  }

  lemma {:induction false} AsciiBytes(s: string)
    requires Ascii(s)
    ensures Bytes(s) == |s|
  {
    if s != [] {
      PartFree(s, 0, |s| - 1);
      assert s[..|s| - 1] == s[0..|s| - 1] && s[|s| - 1] in s;
      AsciiBytes(s[..|s| - 1]);
    }
  }

  lemma {:induction false} FitsWhole(s: string, k: nat, characters: int, bytes: int)
    requires k <= |s| <= characters && Bytes(s) <= bytes
    ensures Fitting(s[..k], characters, bytes) == k
    decreases k
  {
    if k > 0 {
      FitsWhole(s, k - 1, characters, bytes);
      assert s[..k][..k - 1] == s[..k - 1];
      BytesPrefix(s, k);
    }
  }

  lemma FallbackFits(h: string, extension: string)
    requires IsUuid(h) && |extension| <= 5 && Bytes(extension) == |extension|
    ensures Fit(Fallback(h), extension) == Fallback(h)
  {
    FallbackCharacters(h);
    WholeFits(Fallback(h), extension);
  }

  lemma WholeFits(f: string, extension: string)
    requires |f| == 18 && Ascii(f) && !IsTrim(f[0]) && !IsTrim(f[17]) && |extension| <= 5 && Bytes(extension) == |extension|
    ensures Fit(f, extension) == f
  {
    AsciiBytes(f);
    FitsWhole(f, |f|, FIELD_MAX - PREFIX_LENGTH - |extension|, LEAF_MAX_BYTES - Bytes(extension));
    assert f[..|f|] == f;
    Trimmed(f);
  }

  /** A dot and three or four small letters. */
  predicate PlainExtension(e: string) {
    4 <= |e| <= 5 && e[0] == '.' && forall i :: 1 <= i < |e| ==> 'a' <= e[i] <= 'z'
  }

  lemma ExtensionsArePlain(e: string)
    requires e in EXTENSIONS
    ensures PlainExtension(e)
  {
  }

  lemma ExtensionFacts(e: string)
    requires e in EXTENSIONS
    ensures 4 <= |e| <= 5 && e[0] == '.' && '.' !in e[1..] && Ascii(e) && ControlFree(e) && InvalidFree(e)
    ensures Bytes(e) == |e|
  {
    ExtensionsArePlain(e);
    PlainFacts(e);
  }

  lemma PlainFacts(e: string)
    requires PlainExtension(e)
    ensures '.' !in e[1..] && Ascii(e) && ControlFree(e) && InvalidFree(e) && Bytes(e) == |e|
  {
    forall c | c in e ensures c == '.' || 'a' <= c <= 'z' { }
    AsciiBytes(e);
  }

  /** Good, usable, and short enough with this extension. */
  ghost predicate RoomFor(u: Unicode, stem: string, extension: string) {
    && GoodStem(u, stem)
    && |stem| <= FIELD_MAX - PREFIX_LENGTH - |extension| && Bytes(stem) + Bytes(extension) <= LEAF_MAX_BYTES
  }

  lemma StemIsGood(u: Unicode, h: string, filename: string, extension: string)
    requires Lawful(u) && IsUuid(h) && ControlFree(filename) && extension in EXTENSIONS
    ensures RoomFor(u, StemFor(u, h, filename, extension), extension) && Usable(u, StemFor(u, h, filename, extension))
  {
    ExtensionFacts(extension);
    PhysicalStemIsGood(u, filename);
    FallbackIsGood(u, h);
    FallbackFits(h, extension);
    Choose(u, PhysicalStem(u, filename), Fallback(h), extension);
  }

  lemma Choose(u: Unicode, physical: string, fallback: string, extension: string)
    requires Lawful(u) && GoodStem(u, physical) && GoodStem(u, fallback) && Usable(u, fallback)
    requires |extension| <= 5 && Bytes(extension) == |extension| && Fit(fallback, extension) == fallback
    ensures var first := Fit(if Usable(u, physical) then physical else fallback, extension);
            var stem := if Usable(u, first) then first else Fit(fallback, extension);
            RoomFor(u, stem, extension) && Usable(u, stem)
  {
    FitIsGood(u, fallback, extension);
    if Usable(u, physical) { FitIsGood(u, physical, extension); }
  }

  // ---------------------------------------------------------------- recognising what was built

  lemma {:induction false} RFindIs(s: string, c: char, i: nat)
    requires i < |s| && s[i] == c && c !in s[i + 1..]
    ensures RFind(s, c) == Some(i)
  {
    assert s[i] in s;
    NoneAfter(s, c, i);
    NoneAfter(s, c, RFind(s, c).value);
  }

  lemma NoneAfter(s: string, c: char, i: nat)
    requires i < |s| && c !in s[i + 1..]
    ensures forall k :: i < k < |s| ==> s[k] != c
  {
    assert forall k :: i < k < |s| ==> s[k] == s[i + 1..][k - i - 1];
  }

  lemma SplitsAtExtension(stem: string, e: string)
    requires stem != [] && stem[0] != '.' && e != [] && e[0] == '.' && '.' !in e[1..]
    ensures SplitExt(stem + e) == (stem, e)
  {
    assert (stem + e)[|stem| + 1..] == e[1..];
    RFindIs(stem + e, '.', |stem|);
    assert (stem + e)[0] == stem[0];
    assert (stem + e)[..|stem|] == stem && (stem + e)[|stem|..] == e;
  }

  lemma LeafIsValidFor(u: Unicode, h: string, stem: string, e: string)
    requires Lawful(u) && IsUuid(h) && e in EXTENSIONS && RoomFor(u, stem, e) && Usable(u, stem)
    ensures ValidOriginalLeaf(u, h, stem + e) && Bytes(stem + e) <= LEAF_MAX_BYTES && '/' !in stem + e
  {
    ExtensionFacts(e);
    var i, j := StripIsPart(stem);
    assert u.nfc(stem + e) == stem + e;
    SplitsAtExtension(stem, e);
    BytesSum(stem, e);
  }

  lemma {:induction false} SplitWhole(a: string)
    requires '/' !in a
    ensures Split(a) == [a]
  {
    if a != [] {
      forall c | c in a[1..] ensures c in a { }
      SplitWhole(a[1..]);
      assert a[0] in a && [a[0]] + a[1..] == a;
    }
  }

  lemma {:induction false} SplitFirst(a: string, rest: string)
    requires '/' !in a
    ensures Split(a + "/" + rest) == [a] + Split(rest)
  {
    var s := a + "/" + rest;
    if a == [] {
      assert s[1..] == rest;
    } else {
      forall c | c in a[1..] ensures c in a { }
      assert s[1..] == a[1..] + "/" + rest && a[0] in a;
      SplitFirst(a[1..], rest);
      assert [a[0]] + a[1..] == a;
    }
  }

  lemma UuidRoundTrip(h: string)
    requires IsUuid(h)
    ensures UuidOf(UuidText(h)) == Some(h) && '/' !in UuidText(h) && |UuidText(h)| == 36
  {
    var t := UuidText(h);
    assert t[..8] == h[..8] && t[9..13] == h[8..12] && t[14..18] == h[12..16] && t[19..23] == h[16..20] && t[24..] == h[20..];
    assert h[..8] + h[8..12] + h[12..16] + h[16..20] + h[20..] == h;
    forall c | c in t ensures c == '-' || c in h { }
  }

  lemma SplitPath(root: string, h: string, leaf: string)
    requires IsUuid(h) && '/' !in root && '/' !in leaf
    ensures Split(root + "/" + UuidText(h) + "/" + leaf) == [root, UuidText(h), leaf]
  {
    UuidRoundTrip(h);
    var t := UuidText(h);
    assert root + "/" + t + "/" + leaf == root + "/" + (t + "/" + leaf);
    SplitFirst(root, t + "/" + leaf);
    SplitFirst(t, leaf);
    SplitWhole(leaf);
  }

  lemma RecognisesOriginal(u: Unicode, h: string, leaf: string)
    requires IsUuid(h) && '/' !in leaf && ValidOriginalLeaf(u, h, leaf)
    ensures CanonicalMediaPath(u, OriginalDirectory(h) + "/" + leaf) == Some(Recognised(Original, h, OriginalDirectory(h)))
  {
    UuidRoundTrip(h);
    SplitPath("originals", h, leaf);
    assert "originals" + "/" == "originals/";
    SplitExtMeansLittle(u, h, OriginalDirectory(h) + "/" + leaf, leaf);
  }

  lemma SplitExtMeansLittle(u: Unicode, h: string, name: string, leaf: string)
    requires IsUuid(h) && Split(name) == ["originals", UuidText(h), leaf] && UuidOf(UuidText(h)) == Some(h)
    requires ValidOriginalLeaf(u, h, leaf)
    ensures CanonicalMediaPath(u, name) == Some(Recognised(Original, h, OriginalDirectory(h)))
  {
  }

  lemma LeafIsValid(u: Unicode, h: string, filename: string, extension: string)
    requires Lawful(u) && IsUuid(h) && ControlFree(filename) && extension in EXTENSIONS
    ensures var leaf := StemFor(u, h, filename, extension) + extension;
            && ValidOriginalLeaf(u, h, leaf) && Bytes(leaf) <= LEAF_MAX_BYTES
            && |OriginalDirectory(h) + "/" + leaf| <= FIELD_MAX
            && CanonicalMediaPath(u, OriginalDirectory(h) + "/" + leaf) == Some(Recognised(Original, h, OriginalDirectory(h)))
  {
    var stem := StemFor(u, h, filename, extension);
    StemIsGood(u, h, filename, extension);
    LeafIsValidFor(u, h, stem, extension);
    UuidRoundTrip(h);
    RecognisesOriginal(u, h, stem + extension);
  }

  function CanonicalDerivativePath(h: string, size: string, extension: string): Result<string, string>
    requires IsUuid(h)
  {
    if size !in DERIVATIVES then Err("Unsupported derivative size: " + size)
    else if extension !in EXTENSIONS then Err("invalid_derivative_extension")
    else Ok(DerivativeDirectory(h) + "/" + (size + extension))
  }

  /** The path of a derivative is recognised as that uuid's derivative. */
  lemma DerivativeRoundTrip(u: Unicode, h: string, size: string, extension: string)
    requires IsUuid(h) && size in DERIVATIVES && extension in EXTENSIONS
    ensures var r := CanonicalDerivativePath(h, size, extension);
            && r.Ok? && |r.value| <= FIELD_MAX
            && CanonicalMediaPath(u, r.value) == Some(Recognised(Thumbnail, h, DerivativeDirectory(h)))
  {
    ExtensionFacts(extension);
    SizesArePlain(size);
    UuidRoundTrip(h);
    SplitsAtExtension(size, extension);
    SplitPath("derivatives", h, size + extension);
    assert "derivatives" + "/" == "derivatives/";
    RecognisesDerivative(u, h, DerivativeDirectory(h) + "/" + (size + extension), size, extension);
  }

  lemma SizesArePlain(size: string)
    requires size in DERIVATIVES
    ensures 0 < |size| <= 9 && size[0] != '.' && '/' !in size
  {
  }

  lemma RecognisesDerivative(u: Unicode, h: string, name: string, size: string, extension: string)
    requires IsUuid(h) && size in DERIVATIVES && extension in EXTENSIONS
    requires Split(name) == ["derivatives", UuidText(h), size + extension] && UuidOf(UuidText(h)) == Some(h)
    requires SplitExt(size + extension) == (size, extension)
    ensures CanonicalMediaPath(u, name) == Some(Recognised(Thumbnail, h, DerivativeDirectory(h)))
  {
  }
}
