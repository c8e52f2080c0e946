/** The leaf names one tailed path can have on the server, and when two of them coincide. */
module Names {

  /** `Live` is the basename itself; every other name adds a suffix to it. */
  datatype Name =
    | Live
    | Sealed(iso: string)
    | Final(iso: string, sha: string)
    | DatedOrphan(iso: string)
    | FixedOrphan

  predicate IsDigit(c: char) { '0' <= c <= '9' }

  predicate IsHex(c: char) { IsDigit(c) || 'a' <= c <= 'f' }

  /** `\d{8}T\d{6}Z` */
  predicate IsIso(s: string) {
    && |s| == 16
    && (forall i | 0 <= i < 8 :: IsDigit(s[i]))
    && s[8] == 'T'
    && (forall i | 9 <= i < 15 :: IsDigit(s[i]))
    && s[15] == 'Z'
  }

  /** `[0-9a-f]{13}` */
  predicate IsSha13(s: string) {
    |s| == 13 && forall i | 0 <= i < 13 :: IsHex(s[i])
  }

  predicate WellFormed(n: Name) {
    match n
    case Live => true
    case Sealed(iso) => IsIso(iso)
    case Final(iso, sha) => IsIso(iso) && IsSha13(sha)
    case DatedOrphan(iso) => IsIso(iso)
    case FixedOrphan => true
  }

  /** The name as the agent spells it. */
  function Render(base: string, n: Name): string {
    match n
    case Live => base
    case Sealed(iso) => base + "." + iso
    case Final(iso, sha) => base + "." + iso + "." + sha
    case DatedOrphan(iso) => base + "." + iso + ".orphan"
    case FixedOrphan => base + ".orphan"
  }

  /** A name that refers to one directory entry and cannot leave the directory. */
  predicate SafeSegment(s: string) {
    && s != "" && s != "." && s != ".."
    && '/' !in s && '\\' !in s && '\0' !in s
  }

  /** Different names of one path are different strings on the server. */
  lemma RenderInjective(base: string, n: Name, m: Name)
    requires WellFormed(n) && WellFormed(m)
    ensures Render(base, n) == Render(base, m) <==> n == m
  {
    if Render(base, n) == Render(base, m) {
      assert |Render(base, n)| == |Render(base, m)|;
      var k := |base|;
      match n
      case Sealed(iso) =>
        assert Render(base, n)[k + 1..] == iso;
        assert Render(base, m)[k + 1..] == m.iso;
      case Final(iso, sha) =>
        assert Render(base, n)[k + 1..k + 17] == iso;
        assert Render(base, m)[k + 1..k + 17] == m.iso;
        assert Render(base, n)[k + 18..] == sha;
        assert Render(base, m)[k + 18..] == m.sha;
      case DatedOrphan(iso) =>
        assert Render(base, n)[k + 1..k + 17] == iso;
        assert Render(base, m)[k + 1..k + 17] == m.iso;
      case _ =>
    }
  }

  /** How each name grows out of the one before it. */
  lemma NamesGrow(base: string, iso: string, sha: string)
    ensures Render(base, Live) == base
    ensures Render(base, Sealed(iso)) == Render(base, Live) + "." + iso
    ensures Render(base, Final(iso, sha)) == Render(base, Sealed(iso)) + "." + sha
    ensures Render(base, DatedOrphan(iso)) == Render(base, Sealed(iso)) + ".orphan"
    ensures Render(base, FixedOrphan) == Render(base, Live) + ".orphan"
  {
  }

  /** The names of one path in full. */
  lemma NamesSpelled()
    ensures Render("a", Sealed("20260101T120000Z")) == "a.20260101T120000Z"
    ensures Render("a", Final("20260101T120000Z", "0123456789abc")) == "a.20260101T120000Z.0123456789abc"
    ensures Render("a", DatedOrphan("20260101T120000Z")) == "a.20260101T120000Z.orphan"
    ensures Render("a", FixedOrphan) == "a.orphan"
  {
    assert "a" + "." + "20260101T120000Z" == "a.20260101T120000Z";
  }

  /** The server accepts every name the agent makes out of an acceptable basename. */
  lemma RenderSafe(base: string, n: Name)
    requires SafeSegment(base) && WellFormed(n)
    ensures SafeSegment(Render(base, n))
  {
    var r := Render(base, n);
    if n != Live {
      assert |r| >= |base| + 7;
    }
    match n
    case Sealed(iso) => IsoSafe(iso);
    case Final(iso, sha) => IsoSafe(iso);
    case DatedOrphan(iso) => IsoSafe(iso);
    case _ =>
  }

  lemma IsoSafe(iso: string)
    requires IsIso(iso)
    ensures forall c | c in iso :: IsDigit(c) || c == 'T' || c == 'Z'
  {
    forall c | c in iso ensures IsDigit(c) || c == 'T' || c == 'Z' {
      var i :| 0 <= i < |iso| && iso[i] == c;
      assert i < 8 || i == 8 || 9 <= i < 15 || i == 15;
    }
  }
}
