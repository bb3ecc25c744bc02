/** What the rules for media paths add up to: good names are kept, cuts are as late as possible, and only built shapes are recognised. */
module PathLaws {
  import opened Paths
  import opened Wrappers

  // ---------------------------------------------------------------- characters

  /** The UTF-8 encoding of a character, section 3 of RFC 3629. */
  function Utf8(c: char): seq<nat> {
    var n := c as nat;
    if n <= 0x7F then [n]
    else if n <= 0x7FF then [0xC0 + n / 0x40, 0x80 + n % 0x40]
    else if n <= 0xFFFF then [0xE0 + n / 0x1000, 0x80 + n / 0x40 % 0x40, 0x80 + n % 0x40]
    else [0xF0 + n / 0x40000, 0x80 + n / 0x1000 % 0x40, 0x80 + n / 0x40 % 0x40, 0x80 + n % 0x40]
  }

  /** The byte count of a string is that of its encoding. */
  lemma {:induction false} BytesAreUtf8(s: string)
    ensures Bytes(s) == |Utf8All(s)|
  {
    if s != [] {
      BytesAreUtf8(s[..|s| - 1]);
    }
  }

  function Utf8All(s: string): seq<nat> {
    if s == [] then [] else Utf8All(s[..|s| - 1]) + Utf8(s[|s| - 1])
  }

  /** No character of a uuid is anything but a hexadecimal digit, and upper-casing keeps each letter's place in the alphabet. */
  lemma Characters(c: char)
    ensures IsHex(c) <==> c in "0123456789abcdef"
    ensures 'a' <= c <= 'z' ==> 'A' <= UpperChar(c) <= 'Z' && UpperChar(c) as int - 'A' as int == c as int - 'a' as int
    ensures !('a' <= c <= 'z') ==> UpperChar(c) == c
  {
  }

  // ---------------------------------------------------------------- cutting

  /** No longer beginning would fit. */
  lemma {:induction false} FittingIsLongest(stem: string, characters: int, bytes: int, m: nat)
    requires m <= |stem| && m <= characters && Bytes(stem[..m]) <= bytes
    ensures m <= Fitting(stem, characters, bytes)
    decreases |stem|
  {
    assert stem[..|stem|] == stem;
    if m == |stem| {
      FitsWhole(stem, |stem|, characters, bytes);
    } else {
      var init := stem[..|stem| - 1];
      assert init[..m] == stem[..m];
      FittingIsLongest(init, characters, bytes, m);
    }
  }

  /** The stem is cut where path or leaf would become longer than 255, as late as possible, and then stripped. */
  lemma FitMeans(stem: string, extension: string) returns (n: nat)
    requires |extension| <= 5 && Bytes(extension) == |extension|
    ensures n <= |stem| && Fit(stem, extension) == Strip(stem[..n])
    ensures 47 + n + |extension| <= 255 && Bytes(stem[..n]) + |extension| <= 255
    ensures forall m :: n < m <= |stem| ==> 47 + m + |extension| > 255 || Bytes(stem[..m]) + |extension| > 255
  {
    n := Fitting(stem, FIELD_MAX - PREFIX_LENGTH - |extension|, LEAF_MAX_BYTES - Bytes(extension));
    if n == 0 { assert stem[..0] == []; }
    forall m | n < m <= |stem| ensures 47 + m + |extension| > 255 || Bytes(stem[..m]) + |extension| > 255 {
      if 47 + m + |extension| <= 255 && Bytes(stem[..m]) + |extension| <= 255 {
        FittingIsLongest(stem, FIELD_MAX - PREFIX_LENGTH - |extension|, LEAF_MAX_BYTES - Bytes(extension), m);
      }
    }
  }

  // ---------------------------------------------------------------- names that are kept

  lemma PortableKeeps(s: string)
    requires InvalidFree(s)
    ensures Portable(s) == s
  {
    forall i | 0 <= i < |s| ensures Portable(s)[i] == s[i] {
      assert s[i] in s;
    }
  }

  lemma NoSlashInGood(s: string, e: string)
    requires InvalidFree(s) && InvalidFree(e)
    ensures NoSlash(s + e)
  {
    forall ch | ch in s + e ensures ch in s || ch in e {}
    assert IsInvalid('/') && IsInvalid('\\');
  }

  lemma SanitizeKeeps(u: Unicode, s: string, e: string)
    requires Lawful(u) && GoodStem(u, s) && e in EXTENSIONS && |s + e| <= 255
    ensures Sanitize(u, s + e) == s + e
  {
    ExtensionFacts(e);
    NoSlashInGood(s, e);
    BasenameOfNoSlash(s + e);
    assert u.nfc(s + e) == s + e;
    FilterNothing(s + e);
  }

  lemma StemIsFound(u: Unicode, s: string, e: string)
    requires Lawful(u) && GoodStem(u, s) && e in EXTENSIONS && |s + e| <= 255
    ensures PhysicalStem(u, s + e) == s
  {
    SanitizeKeeps(u, s, e);
    ExtensionFacts(e);
    assert (s + e)[|s| + 1..] == e[1..];
    RFindIs(s + e, '.', |s|);
    assert (s + e)[..|s|] == s;
    PortableKeeps(s);
  }

  /** A portable, normalized, usable stem with room for its extension is kept as it is. */
  lemma KeepsGoodNames(u: Unicode, h: string, s: string, e: string)
    requires Lawful(u) && IsUuid(h) && e in EXTENSIONS && RoomFor(u, s, e) && Usable(u, s)
    ensures StemFor(u, h, s + e, e) == s
  {
    StemIsFound(u, s, e);
    ExtensionFacts(e);
    FitsWhole(s, |s|, FIELD_MAX - PREFIX_LENGTH - |e|, LEAF_MAX_BYTES - Bytes(e));
    assert s[..|s|] == s;
  }

  /** Building a path from the leaf of a built path gives that path again. */
  lemma BuildingIsIdempotent(u: Unicode, h: string, filename: string, e: string)
    requires Lawful(u) && IsUuid(h) && ControlFree(filename) && e in EXTENSIONS
    ensures var stem := StemFor(u, h, filename, e); StemFor(u, h, stem + e, e) == stem
  {
    StemIsGood(u, h, filename, e);
    KeepsGoodNames(u, h, StemFor(u, h, filename, e), e);
  }

  // ---------------------------------------------------------------- what is recognised

  function Join(parts: seq<string>): string
    requires parts != []
  {
    if |parts| == 1 then parts[0] else parts[0] + "/" + Join(parts[1..])
  }

  lemma {:induction false} JoinsBack(s: string)
    ensures Join(Split(s)) == s && forall p :: p in Split(s) ==> '/' !in p
  {
    if s != [] {
      var rest := Split(s[1..]);
      JoinsBack(s[1..]);
      assert s == [s[0]] + s[1..];
      if s[0] == '/' {
        assert Split(s)[1..] == rest;
      } else {
        assert Split(s)[1..] == rest[1..];
        forall p | p in Split(s) ensures '/' !in p {
          assert rest[0] in rest;
          if p != [s[0]] + rest[0] { assert p in rest; }
        }
      }
    }
  }

  lemma JoinThree(a: string, b: string, c: string)
    ensures Join([a, b, c]) == a + "/" + b + "/" + c
  {
    assert [b, c][1..] == [c] && Join([c]) == c;
    assert Join([b, c]) == b + "/" + Join([b, c][1..]) == b + "/" + c;
    assert [a, b, c][1..] == [b, c];
    assert Join([a, b, c]) == a + "/" + Join([a, b, c][1..]);
    assert a + "/" + (b + "/" + c) == a + "/" + b + "/" + c;
  }

  lemma ThreeParts(s: string)
    requires |Split(s)| == 3
    ensures var p := Split(s); s == p[0] + "/" + p[1] + "/" + p[2] && '/' !in p[2]
  {
    hide Split, Join;
    var p := Split(s);
    JoinsBack(s);
    assert p == [p[0], p[1], p[2]] && p[2] in p;
    JoinThree(p[0], p[1], p[2]);
  }

  lemma SplitExtJoins(leaf: string)
    ensures SplitExt(leaf).0 + SplitExt(leaf).1 == leaf
  {
    var r := RFind(leaf, '.');
    if r.Some? {
      assert leaf[..r.value] + leaf[r.value..] == leaf;
    }
  }

  predicate Builds(h: string, name: string, size: string, e: string)
    requires IsUuid(h)
  {
    size in DERIVATIVES && e in EXTENSIONS && name == "derivatives/" + UuidText(h) + "/" + (size + e)
  }

  lemma BuiltParts(u: Unicode, h: string, name: string) returns (size: string, e: string)
    requires IsUuid(h) && CanonicalMediaPath(u, name) == Some(Recognised(Thumbnail, h, DerivativeDirectory(h)))
    ensures Builds(h, name, size, e)
  {
    hide ValidOriginalLeaf, SplitExt, Split, IsUuid, UuidText;
    ThreeParts(name);
    var leaf := Split(name)[2];
    SplitExtJoins(leaf);
    size, e := SplitExt(leaf).0, SplitExt(leaf).1;
    assert "derivatives" + "/" == "derivatives/";
  }

  /** A name is recognised as a derivative exactly if it is the one that is built for that uuid, a size and an extension. */
  lemma DerivativesExactly(u: Unicode, h: string, name: string)
    requires IsUuid(h)
    ensures CanonicalMediaPath(u, name) == Some(Recognised(Thumbnail, h, DerivativeDirectory(h))) <==>
              exists size, e :: Builds(h, name, size, e)
  {
    hide CanonicalMediaPath, UuidText, IsUuid, DerivativeDirectory;
    if CanonicalMediaPath(u, name) == Some(Recognised(Thumbnail, h, DerivativeDirectory(h))) {
      var size, e := BuiltParts(u, h, name);
    }
    forall size, e | Builds(h, name, size, e)
      ensures CanonicalMediaPath(u, name) == Some(Recognised(Thumbnail, h, DerivativeDirectory(h)))
    {
      DerivativeRoundTrip(u, h, size, e);
      BuiltPath(h, name, size, e);
    }
  }

  lemma BuiltPath(h: string, name: string, size: string, e: string)
    requires IsUuid(h) && Builds(h, name, size, e)
    ensures CanonicalDerivativePath(h, size, e) == Ok(name)
  {
    assert DerivativeDirectory(h) + "/" + (size + e) == "derivatives/" + UuidText(h) + "/" + (size + e);
  }

  /** A portable leaf within the limits that has a known extension and a usable stem. */
  ghost predicate GoodLeaf(u: Unicode, leaf: string, stem: string, e: string) {
    && leaf != "" && u.nfc(leaf) == stem + e && e in EXTENSIONS
    && ControlFree(stem + e) && InvalidFree(stem + e) && Strip(stem) == stem && Usable(u, stem)
    && 47 + |stem + e| <= 255 && Bytes(stem + e) <= 255
  }

  lemma ValidLeafMeans(u: Unicode, h: string, leaf: string)
    requires IsUuid(h) && ValidOriginalLeaf(u, h, leaf)
    ensures GoodLeaf(u, leaf, SplitExt(u.nfc(leaf)).0, SplitExt(u.nfc(leaf)).1)
  {
    SplitExtJoins(u.nfc(leaf));
    UuidRoundTrip(h);
  }

  lemma GoodLeafIsValid(u: Unicode, h: string, leaf: string, stem: string, e: string)
    requires IsUuid(h) && GoodLeaf(u, leaf, stem, e)
    ensures ValidOriginalLeaf(u, h, leaf)
  {
    ExtensionFacts(e);
    SplitsAtExtension(stem, e);
    UuidRoundTrip(h);
  }

  /** A name is recognised as an original exactly if it is the uuid's directory and a good leaf. */
  lemma OriginalsExactly(u: Unicode, h: string, name: string)
    requires IsUuid(h)
    ensures CanonicalMediaPath(u, name) == Some(Recognised(Original, h, OriginalDirectory(h))) <==>
              exists leaf, stem, e :: '/' !in leaf && GoodLeaf(u, leaf, stem, e)
                                      && name == "originals/" + UuidText(h) + "/" + leaf
  {
    hide ValidOriginalLeaf, GoodLeaf, SplitExt, Split, IsUuid;
    if CanonicalMediaPath(u, name) == Some(Recognised(Original, h, OriginalDirectory(h))) {
      ThreeParts(name);
      var leaf := Split(name)[2];
      ValidLeafMeans(u, h, leaf);
      assert name == "originals/" + UuidText(h) + "/" + leaf;
    }
    forall leaf, stem, e | '/' !in leaf && GoodLeaf(u, leaf, stem, e) && name == "originals/" + UuidText(h) + "/" + leaf
      ensures CanonicalMediaPath(u, name) == Some(Recognised(Original, h, OriginalDirectory(h)))
    {
      GoodLeafIsValid(u, h, leaf, stem, e);
      RecognisesOriginal(u, h, leaf);
    }
  }
}
