/** Version precedence as section 11 of Semantic Versioning 2.0.0 defines it. The version gate
    compares versions with the semver library, which follows that section. */
module Semver {
  import opened Types

  /** A dot-separated prerelease identifier: a number, or text with at least one non-digit. */
  datatype Identifier = Numeric(n: nat) | Alphanumeric(text: string)

  datatype Version = Version(major: nat, minor: nat, patch: nat, prerelease: seq<Identifier>, build: string)

  /** A parser of version texts; its grammar is the library's, so it is left arbitrary. */
  type Parser = string -> Option<Version>

  /** Either order, or a tie. */
  datatype Ordering = Before | Same | After {
    function Flip(): Ordering {
      match this
      case Before => After
      case Same => Same
      case After => Before
    }

    /** This comparison, with ties settled by the next one. */
    function Then(next: Ordering): Ordering {
      if Same? then next else this
    }
  }

  function CompareInt(a: int, b: int): Ordering {
    if a < b then Before else if a > b then After else Same
  }

  function CompareText(s: string, t: string): Ordering {
    if s == [] || t == [] then CompareInt(|s|, |t|)
    else CompareInt(s[0] as int, t[0] as int).Then(CompareText(s[1..], t[1..]))
  }

  function CompareIdentifier(a: Identifier, b: Identifier): Ordering {
    match (a, b)
    case (Numeric(m), Numeric(n)) => CompareInt(m, n)
    case (Numeric(_), Alphanumeric(_)) => Before
    case (Alphanumeric(_), Numeric(_)) => After
    case (Alphanumeric(s), Alphanumeric(t)) => CompareText(s, t)
  }

  /** Field by field from the left; of two lists with a common beginning the longer is later. */
  function CompareIdentifiers(a: seq<Identifier>, b: seq<Identifier>): Ordering {
    if a == [] || b == [] then CompareInt(|a|, |b|)
    else CompareIdentifier(a[0], b[0]).Then(CompareIdentifiers(a[1..], b[1..]))
  }

  /** A version with a prerelease comes before the same version without. */
  function ComparePrerelease(a: seq<Identifier>, b: seq<Identifier>): Ordering {
    if a == [] || b == [] then CompareInt(|b|, |a|) else CompareIdentifiers(a, b)
  }

  function Compare(a: Version, b: Version): Ordering {
    CompareInt(a.major, b.major)
    .Then(CompareInt(a.minor, b.minor))
    .Then(CompareInt(a.patch, b.patch))
    .Then(ComparePrerelease(a.prerelease, b.prerelease))
  }

  predicate LessThan(a: Version, b: Version) {
    Compare(a, b).Before?
  }

  /** Everything of a version but its build metadata, which precedence ignores. */
  function Precedence(v: Version): Version {
    v.(build := "")
  }

  /** strings.TrimPrefix(s, "v") */
  function TrimV(s: string): string {
    if |s| > 0 && s[0] == 'v' then s[1..] else s
  }

  /** CompareVersions in internal/checks/version.go. */
  function CompareVersions(parse: Parser, v1: string, v2: string): Result<Ordering> {
    match parse(TrimV(v1))
    case None => Err
    case Some(a) =>
      match parse(TrimV(v2))
      case None => Err
      case Some(b) => Ok(Compare(a, b))
  }

  // ---------- The order laws, layer by layer ----------

  lemma {:induction false} TextFlips(s: string, t: string)
    ensures CompareText(t, s) == CompareText(s, t).Flip()
    ensures CompareText(s, t).Same? <==> s == t
  {
    if s != [] && t != [] {
      TextFlips(s[1..], t[1..]);
      assert s == [s[0]] + s[1..] && t == [t[0]] + t[1..];
    }
  }

  lemma {:induction false} TextTransitive(s: string, t: string, u: string)
    requires !CompareText(s, t).After? && !CompareText(t, u).After?
    ensures !CompareText(s, u).After?
    ensures CompareText(s, u).Same? ==> CompareText(s, t).Same? && CompareText(t, u).Same?
  {
    if s != [] && t != [] && u != [] && s[0] == t[0] == u[0] {
      TextTransitive(s[1..], t[1..], u[1..]);
    }
  }

  lemma IdentifierFlips(a: Identifier, b: Identifier)
    ensures CompareIdentifier(b, a) == CompareIdentifier(a, b).Flip()
    ensures CompareIdentifier(a, b).Same? <==> a == b
  {
    if a.Alphanumeric? && b.Alphanumeric? {
      TextFlips(a.text, b.text);
    }
  }

  lemma IdentifierTransitive(a: Identifier, b: Identifier, c: Identifier)
    requires !CompareIdentifier(a, b).After? && !CompareIdentifier(b, c).After?
    ensures !CompareIdentifier(a, c).After?
    ensures CompareIdentifier(a, c).Same? ==> CompareIdentifier(a, b).Same? && CompareIdentifier(b, c).Same?
  {
    if a.Alphanumeric? && b.Alphanumeric? && c.Alphanumeric? {
      TextTransitive(a.text, b.text, c.text);
    }
  }

  lemma {:induction false} IdentifiersFlip(a: seq<Identifier>, b: seq<Identifier>)
    ensures CompareIdentifiers(b, a) == CompareIdentifiers(a, b).Flip()
    ensures CompareIdentifiers(a, b).Same? <==> a == b
  {
    if a != [] && b != [] {
      IdentifierFlips(a[0], b[0]);
      IdentifiersFlip(a[1..], b[1..]);
      assert a == [a[0]] + a[1..] && b == [b[0]] + b[1..];
    }
  }

  lemma {:induction false} IdentifiersTransitive(a: seq<Identifier>, b: seq<Identifier>, c: seq<Identifier>)
    requires !CompareIdentifiers(a, b).After? && !CompareIdentifiers(b, c).After?
    ensures !CompareIdentifiers(a, c).After?
    ensures CompareIdentifiers(a, c).Same? ==> CompareIdentifiers(a, b).Same? && CompareIdentifiers(b, c).Same?
  {
    if a != [] && b != [] && c != [] {
      IdentifierTransitive(a[0], b[0], c[0]);
      if CompareIdentifier(a[0], b[0]).Same? && CompareIdentifier(b[0], c[0]).Same? {
        IdentifierFlips(a[0], b[0]);
        IdentifierFlips(b[0], c[0]);
        IdentifierFlips(a[0], c[0]);
        IdentifiersTransitive(a[1..], b[1..], c[1..]);
      }
    }
  }

  lemma PrereleaseTransitive(a: seq<Identifier>, b: seq<Identifier>, c: seq<Identifier>)
    requires !ComparePrerelease(a, b).After? && !ComparePrerelease(b, c).After?
    ensures !ComparePrerelease(a, c).After?
    ensures ComparePrerelease(a, c).Same? ==> ComparePrerelease(a, b).Same? && ComparePrerelease(b, c).Same?
  {
    if a != [] && b != [] && c != [] {
      IdentifiersTransitive(a, b, c);
    }
  }

  /** Precedence is a total preorder: any two versions compare, in opposite senses when swapped, and
      they tie exactly when they agree on everything but the build metadata. */
  lemma CompareFlips(a: Version, b: Version)
    ensures Compare(b, a) == Compare(a, b).Flip()
    ensures Compare(a, b).Same? <==> Precedence(a) == Precedence(b)
  {
    IdentifiersFlip(a.prerelease, b.prerelease);
  }

  lemma CompareTransitive(a: Version, b: Version, c: Version)
    requires !Compare(a, b).After? && !Compare(b, c).After?
    ensures !Compare(a, c).After?
    ensures Compare(a, c).Same? ==> Compare(a, b).Same? && Compare(b, c).Same?
  {
    if a.major == b.major == c.major && a.minor == b.minor == c.minor && a.patch == b.patch == c.patch {
      PrereleaseTransitive(a.prerelease, b.prerelease, c.prerelease);
    }
  }

  /** A version that reaches a minimum reaches every lower minimum. */
  lemma ReachesLowerMinimum(v: Version, low: Version, high: Version)
    requires !Compare(low, high).After?
    requires !LessThan(v, high)
    ensures !LessThan(v, low)
  {
    CompareFlips(v, high);
    CompareTransitive(low, high, v);
    CompareFlips(v, low);
  }

  // ---------- What section 11 of the standard says, field by field ----------

  /** A text comes before another in the order of its characters: they are the same up to here, where the first
      one ends or has the earlier character. */
  ghost predicate TextBeforeAt(s: string, t: string, i: nat) {
    i <= |s| && i < |t| && s[..i] == t[..i] && (i == |s| || s[i] < t[i])
  }

  ghost predicate TextBefore(s: string, t: string) {
    exists i :: TextBeforeAt(s, t, i)
  }

  lemma TextBeforeTail(s: string, t: string, i: nat)
    requires s != [] && t != [] && s[0] == t[0]
    ensures TextBeforeAt(s, t, i + 1) <==> TextBeforeAt(s[1..], t[1..], i)
    ensures !TextBeforeAt(s, t, 0)
  {
    if i < |s| && i < |t| {
      assert s[..i + 1] == [s[0]] + s[1..][..i] && t[..i + 1] == [t[0]] + t[1..][..i];
      assert s[1..][..i] == s[..i + 1][1..] && t[1..][..i] == t[..i + 1][1..];
    }
  }

  lemma TextBeforeHead(s: string, t: string, i: nat)
    requires s != [] && t != [] && s[0] != t[0]
    ensures TextBeforeAt(s, t, i) ==> i == 0 && s[0] < t[0]
  {
    if i > 0 && i <= |s| && i < |t| {
      assert s[..i][0] == s[0] && t[..i][0] == t[0];
    }
  }

  lemma {:induction false} TextMeaning(s: string, t: string)
    ensures CompareText(s, t).Before? <==> TextBefore(s, t)
  {
    if s == [] || t == [] {
      assert TextBeforeAt(s, t, 0) <==> s == [] && t != [];
    } else {
      TextMeaning(s[1..], t[1..]);
      hide TextBeforeAt;
      if s[0] != t[0] {
        forall i: nat {
          TextBeforeHead(s, t, i);
        }
        if s[0] < t[0] {
          TextStarts(s, t);
        }
      } else {
        forall i: nat {
          TextBeforeTail(s, t, i);
        }
        if i: nat :| TextBeforeAt(s, t, i) {
          assert i > 0;
          TextBeforeTail(s, t, i - 1);
        }
      }
    }
  }

  lemma TextStarts(s: string, t: string)
    requires s != [] && t != [] && s[0] < t[0]
    ensures TextBeforeAt(s, t, 0)
  {
  }

  /** Numbers are compared as numbers, text in the order of its characters, and a number comes before text. */
  ghost predicate IdentifierBefore(a: Identifier, b: Identifier) {
    || (a.Numeric? && b.Numeric? && a.n < b.n)
    || (a.Numeric? && b.Alphanumeric?)
    || (a.Alphanumeric? && b.Alphanumeric? && TextBefore(a.text, b.text))
  }

  /** The first identifiers that differ decide; if one list ends before that, the longer one is later. */
  ghost predicate IdentifiersBeforeAt(a: seq<Identifier>, b: seq<Identifier>, i: nat) {
    i <= |a| && i < |b| && a[..i] == b[..i] && (i == |a| || IdentifierBefore(a[i], b[i]))
  }

  ghost predicate IdentifiersBefore(a: seq<Identifier>, b: seq<Identifier>) {
    exists i :: IdentifiersBeforeAt(a, b, i)
  }

  lemma IdentifiersBeforeTail(a: seq<Identifier>, b: seq<Identifier>, i: nat)
    requires a != [] && b != [] && a[0] == b[0]
    ensures IdentifiersBeforeAt(a, b, i + 1) <==> IdentifiersBeforeAt(a[1..], b[1..], i)
  {
    hide IdentifierBefore;
    if i < |a| && i < |b| {
      assert a[..i + 1] == [a[0]] + a[1..][..i] && b[..i + 1] == [b[0]] + b[1..][..i];
      assert a[1..][..i] == a[..i + 1][1..] && b[1..][..i] == b[..i + 1][1..];
    }
  }

  lemma IdentifiersBeforeHead(a: seq<Identifier>, b: seq<Identifier>, i: nat)
    requires a != [] && b != []
    ensures IdentifiersBeforeAt(a, b, 0) <==> IdentifierBefore(a[0], b[0])
    ensures a[0] != b[0] && IdentifiersBeforeAt(a, b, i) ==> i == 0
  {
    hide IdentifierBefore;
    assert a[..0] == b[..0];
    if i > 0 && i <= |a| && i < |b| {
      assert a[..i][0] == a[0] && b[..i][0] == b[0];
    }
  }

  lemma {:induction false} IdentifiersMeaning(a: seq<Identifier>, b: seq<Identifier>)
    ensures CompareIdentifiers(a, b).Before? <==> IdentifiersBefore(a, b)
  {
    if a == [] || b == [] {
      assert IdentifiersBeforeAt(a, b, 0) <==> a == [] && b != [];
    } else {
      IdentifiersMeaning(a[1..], b[1..]);
      IdentifierMeaning(a[0], b[0]);
      IdentifierFlips(a[0], b[0]);
      hide IdentifiersBeforeAt, IdentifierBefore, CompareIdentifier;
      IdentifiersBeforeHead(a, b, 0);
      if i: nat :| IdentifiersBeforeAt(a, b, i) {
        IdentifiersBeforeHead(a, b, i);
        if i > 0 {
          IdentifiersBeforeTail(a, b, i - 1);
        }
      } else if a[0] == b[0] {
        forall i: nat {
          IdentifiersBeforeTail(a, b, i);
        }
      }
    }
  }

  lemma IdentifierMeaning(a: Identifier, b: Identifier)
    ensures CompareIdentifier(a, b).Before? <==> IdentifierBefore(a, b)
  {
    hide TextBefore;
    if a.Alphanumeric? && b.Alphanumeric? {
      TextMeaning(a.text, b.text);
    }
  }

  /** What CompareVersions answers of two versions, by the fields in which they differ: the major number counts
      before the minor number, that before the patch number, that before the prerelease, and nothing else counts. */
  lemma FieldsDecide(parse: Parser, v1: string, v2: string, a: Version, b: Version)
    requires parse(TrimV(v1)) == Some(a) && parse(TrimV(v2)) == Some(b)
    ensures a.major < b.major ==> CompareVersions(parse, v1, v2) == Ok(Before)
    ensures a.major == b.major && a.minor < b.minor ==> CompareVersions(parse, v1, v2) == Ok(Before)
    ensures a.major == b.major && a.minor == b.minor && a.patch < b.patch ==>
      CompareVersions(parse, v1, v2) == Ok(Before)
    ensures a.major == b.major && a.minor == b.minor && a.patch == b.patch ==>
      && (a.prerelease != [] && b.prerelease == [] ==> CompareVersions(parse, v1, v2) == Ok(Before))
      && (a.prerelease != [] && b.prerelease != [] && IdentifiersBefore(a.prerelease, b.prerelease) ==>
            CompareVersions(parse, v1, v2) == Ok(Before))
      && (a.prerelease == b.prerelease <==> CompareVersions(parse, v1, v2) == Ok(Same))
  {
    hide IdentifiersBefore;
    IdentifiersMeaning(a.prerelease, b.prerelease);
    IdentifiersFlip(a.prerelease, b.prerelease);
  }

  /** CompareVersions fails exactly when either text does not parse, and the other way round it gives the
      opposite answer; a leading v makes no difference. */
  lemma CompareVersionsFlips(parse: Parser, v1: string, v2: string)
    ensures CompareVersions(parse, v1, v2).Err? <==> parse(TrimV(v1)).None? || parse(TrimV(v2)).None?
    ensures CompareVersions(parse, v1, v2).Ok? ==>
      CompareVersions(parse, v2, v1) == Ok(CompareVersions(parse, v1, v2).value.Flip())
    ensures TrimV(v1) == v1 ==> CompareVersions(parse, "v" + v1, v2) == CompareVersions(parse, v1, v2)
  {
    hide Compare;
    if parse(TrimV(v1)).Some? && parse(TrimV(v2)).Some? {
      CompareFlips(parse(TrimV(v1)).value, parse(TrimV(v2)).value);
    }
    assert ("v" + v1)[1..] == v1;
  }

  /** The precedence example of section 11.4 of Semantic Versioning 2.0.0, each version before the next. */
  lemma StandardExample()
    ensures
      var alpha, beta := Alphanumeric("alpha"), Alphanumeric("beta");
      && ComparePrerelease([alpha], [alpha, Numeric(1)]).Before?
      && ComparePrerelease([alpha, Numeric(1)], [alpha, beta]).Before?
      && ComparePrerelease([alpha, beta], [beta]).Before?
      && ComparePrerelease([beta], [beta, Numeric(2)]).Before?
      && ComparePrerelease([beta, Numeric(2)], [beta, Numeric(11)]).Before?
      && ComparePrerelease([beta, Numeric(11)], [Alphanumeric("rc"), Numeric(1)]).Before?
      && ComparePrerelease([Alphanumeric("rc"), Numeric(1)], []).Before?
  {
    var alpha, beta := Alphanumeric("alpha"), Alphanumeric("beta");
    TextFlips("alpha", "alpha");
    TextFlips("beta", "beta");
    assert CompareText("alpha", "beta").Before? && CompareText("beta", "rc").Before?;
    assert [alpha, Numeric(1)][1..] == [Numeric(1)] && [alpha, beta][1..] == [beta];
    assert [beta, Numeric(2)][1..] == [Numeric(2)] && [beta, Numeric(11)][1..] == [Numeric(11)];
    assert CompareIdentifiers([Numeric(1)], [beta]).Before?;
    assert CompareIdentifiers([], [Numeric(2)]).Before?;
    assert CompareIdentifiers([Numeric(2)], [Numeric(11)]).Before?;
  }
}
