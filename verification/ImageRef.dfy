/** Reading a version off a container image reference (extractVersionFromImage in
    internal/checks/version.go). */
module ImageRef {
  import opened Types

  // ---------- The library calls ----------

  /** strings.Index for a single character: the first position, or -1. */
  function IndexOf(s: string, c: char): (i: int)
    ensures -1 <= i < |s|
    ensures i == -1 ==> c !in s
    ensures i >= 0 ==> s[i] == c && c !in s[..i]
  {
    if s == [] then -1
    else if s[0] == c then 0
    else
      var rest := IndexOf(s[1..], c);
      if rest == -1 then -1
      else
        assert s[..rest + 1] == [s[0]] + s[1..][..rest];
        rest + 1
  }

  /** strings.LastIndex for a single character: the last position, or -1. */
  function LastIndexOf(s: string, c: char): (i: int)
    ensures -1 <= i < |s|
    ensures i == -1 ==> c !in s
    ensures i >= 0 ==> s[i] == c && c !in s[i + 1..]
  {
    if s == [] then -1
    else if s[|s| - 1] == c then |s| - 1
    else
      var i := LastIndexOf(s[..|s| - 1], c);
      assert i >= 0 ==> s[i + 1..] == s[..|s| - 1][i + 1..] + [s[|s| - 1]];
      i
  }

  /** The class \d. */
  predicate IsDigit(c: char) {
    '0' <= c <= '9'
  }

  /** The class [\w.]. */
  predicate IsWord(c: char) {
    IsDigit(c) || 'a' <= c <= 'z' || 'A' <= c <= 'Z' || c == '_' || c == '.'
  }

  predicate AllDigits(s: string) {
    forall i | 0 <= i < |s| :: IsDigit(s[i])
  }

  predicate AllWord(s: string) {
    forall i | 0 <= i < |s| :: IsWord(s[i])
  }

  // ---------- The version grammar v?X.Y.Z[-pre][+build] ----------

  datatype VersionText = VersionText(
    v: bool, major: string, minor: string, patch: string, pre: Option<string>, build: Option<string>)
  {
    predicate WellFormed() {
      && major != [] && AllDigits(major)
      && minor != [] && AllDigits(minor)
      && patch != [] && AllDigits(patch)
      && (pre.Some? ==> pre.value != [] && AllWord(pre.value))
      && (build.Some? ==> build.value != [] && AllWord(build.value))
    }

    function Print(): string {
      PrintThen([])
    }

    /** The text with more text after it. */
    function PrintThen(rest: string): string {
      (if v then ['v'] else []) + (major + (['.'] + (minor + (['.'] + (patch + SuffixesThen(rest))))))
    }

    function SuffixesThen(rest: string): string {
      Suffix('-', pre) + (Suffix('+', build) + rest)
    }
  }

  function Suffix(mark: char, text: Option<string>): string {
    if text.Some? then [mark] + text.value else []
  }

  /** The version texts v?X.Y.Z[-pre][+build]. */
  ghost predicate InGrammar(s: string) {
    exists g: VersionText :: g.WellFormed() && g.Print() == s
  }

  // ---------- The scanner ----------

  /** Splits off the longest run of digits. */
  function SpanDigits(s: string): (r: (string, string))
    ensures r.0 + r.1 == s
    ensures AllDigits(r.0)
    ensures r.1 != [] ==> !IsDigit(r.1[0])
  {
    if s != [] && IsDigit(s[0]) then
      var (digits, rest) := SpanDigits(s[1..]);
      ([s[0]] + digits, rest)
    else ([], s)
  }

  /** Splits off the longest run of word characters and dots. */
  function SpanWord(s: string): (r: (string, string))
    ensures r.0 + r.1 == s
    ensures AllWord(r.0)
    ensures r.1 != [] ==> !IsWord(r.1[0])
  {
    if s != [] && IsWord(s[0]) then
      var (word, rest) := SpanWord(s[1..]);
      ([s[0]] + word, rest)
    else ([], s)
  }

  /** Splits off an optional group: the mark and at least one character after it, or nothing. */
  function SpanOptional(mark: char, s: string): (r: (Option<string>, string))
    ensures Suffix(mark, r.0) + r.1 == s
    ensures r.0.Some? ==> r.0.value != [] && AllWord(r.0.value)
  {
    if s == [] || s[0] != mark then (None, s)
    else
      var (word, rest) := SpanWord(s[1..]);
      if word == [] then (None, s)
      else
        assert ([mark] + word) + rest == [mark] + (word + rest) == s;
        (Some(word), rest)
  }

  /** A number and the dot after it. */
  function SpanNumberDot(s: string): (r: Option<(string, string)>)
    ensures r.Some? ==> r.value.0 != [] && AllDigits(r.value.0) && s == r.value.0 + (['.'] + r.value.1)
  {
    var (digits, rest) := SpanDigits(s);
    if digits == [] || rest == [] || rest[0] != '.' then None
    else
      assert rest == ['.'] + rest[1..];
      Some((digits, rest[1..]))
  }

  /** The greedy match of ^v?(\d+\.\d+\.\d+(?:-[\w.]+)?(?:\+[\w.]+)?): the text matched and what is left. */
  function Match(tag: string): (m: Option<(VersionText, string)>)
    ensures m.Some? ==> m.value.0.WellFormed() && m.value.0.PrintThen(m.value.1) == tag
  {
    var v := tag != [] && tag[0] == 'v';
    var start := if v then tag[1..] else tag;
    match SpanNumberDot(start)
    case None => None
    case Some((major, afterMajor)) =>
      match SpanNumberDot(afterMajor)
      case None => None
      case Some((minor, afterMinor)) =>
        var (patch, afterPatch) := SpanDigits(afterMinor);
        if patch == [] then None
        else
          var (pre, afterPre) := SpanOptional('-', afterPatch);
          var (build, rest) := SpanOptional('+', afterPre);
          assert tag == (if v then ['v'] else []) + start;
          Some((VersionText(v, major, minor, patch, pre, build), rest))
  }

  /** What extractVersionFromImage makes of the tag, once it has found one. */
  function ScanTag(tag: string): string {
    if tag == "latest" || tag == "" then ""
    else if Match(tag).Some? then Match(tag).value.0.Print()
    else if IsDigit(tag[0]) then tag
    else ""
  }

  /** The part of an image reference before a digest. */
  function BeforeDigest(image: string): string {
    var at := IndexOf(image, '@');
    if at == -1 then image else image[..at]
  }

  /** The tag: what follows the last colon, unless a slash comes after it. */
  function TagOf(image: string): Option<string> {
    var name := BeforeDigest(image);
    var lastSlash := LastIndexOf(name, '/');
    var tagStart := LastIndexOf(name, ':');
    if tagStart == -1 || tagStart < lastSlash then None else Some(name[tagStart + 1..])
  }

  /** extractVersionFromImage. */
  function ExtractVersion(image: string): string {
    match TagOf(image)
    case None => ""
    case Some(tag) => ScanTag(tag)
  }

  /** The grammar, written out: an optional v, three numbers with dots between them, and the optional prerelease
      and build. */
  lemma GrammarMeaning(g: VersionText)
    ensures g.Print() ==
      (if g.v then "v" else "") + (g.major + ("." + (g.minor + ("." + (g.patch +
        ((if g.pre.Some? then "-" + g.pre.value else "") + (if g.build.Some? then "+" + g.build.value else "")))))))
    ensures g.WellFormed() <==>
      && g.major != "" && g.minor != "" && g.patch != ""
      && (forall c | c in g.major || c in g.minor || c in g.patch :: '0' <= c <= '9')
      && (g.pre.Some? ==> g.pre.value != "" && forall c | c in g.pre.value ::
            '0' <= c <= '9' || 'a' <= c <= 'z' || 'A' <= c <= 'Z' || c == '_' || c == '.')
      && (g.build.Some? ==> g.build.value != "" && forall c | c in g.build.value ::
            '0' <= c <= '9' || 'a' <= c <= 'z' || 'A' <= c <= 'Z' || c == '_' || c == '.')
  {
    PrintIs(g);
    FieldsAre(g);
  }

  lemma PrintIs(g: VersionText)
    ensures g.Print() ==
      (if g.v then "v" else "") + (g.major + ("." + (g.minor + ("." + (g.patch +
        ((if g.pre.Some? then "-" + g.pre.value else "") + (if g.build.Some? then "+" + g.build.value else "")))))))
  {
    assert Suffix('+', g.build) + [] == Suffix('+', g.build);
    assert g.build.Some? ==> Suffix('+', g.build) == "+" + g.build.value;
    assert g.pre.Some? ==> Suffix('-', g.pre) == "-" + g.pre.value;
  }

  lemma FieldsAre(g: VersionText)
    ensures g.WellFormed() <==>
      && g.major != "" && g.minor != "" && g.patch != ""
      && (forall c | c in g.major || c in g.minor || c in g.patch :: '0' <= c <= '9')
      && (g.pre.Some? ==> g.pre.value != "" && forall c | c in g.pre.value ::
            '0' <= c <= '9' || 'a' <= c <= 'z' || 'A' <= c <= 'Z' || c == '_' || c == '.')
      && (g.build.Some? ==> g.build.value != "" && forall c | c in g.build.value ::
            '0' <= c <= '9' || 'a' <= c <= 'z' || 'A' <= c <= 'Z' || c == '_' || c == '.')
  {
    hide AllDigits, AllWord;
    ClassesOf(g.major);
    ClassesOf(g.minor);
    ClassesOf(g.patch);
    ClassesOf(g.pre.GetOr(""));
    ClassesOf(g.build.GetOr(""));
  }

  lemma ClassesOf(s: string)
    ensures AllDigits(s) <==> forall c | c in s :: '0' <= c <= '9'
    ensures AllWord(s) <==> forall c | c in s ::
      '0' <= c <= '9' || 'a' <= c <= 'z' || 'A' <= c <= 'Z' || c == '_' || c == '.'
  {
    forall i | 0 <= i < |s|
      ensures s[i] in s
    {
    }
  }

  // ---------- The scan meets the grammar ----------

  lemma PrintThenAppends(g: VersionText, rest: string)
    ensures g.PrintThen(rest) == g.Print() + rest
  {
    var x0 := Suffix('+', g.build);
    assert x0 + rest == (x0 + []) + rest;
    var x1 := Suffix('-', g.pre);
    assert g.SuffixesThen(rest) == g.SuffixesThen([]) + rest;
    var s0 := g.SuffixesThen([]);
    assert g.patch + (s0 + rest) == (g.patch + s0) + rest;
    var s1 := g.patch + s0;
    assert ['.'] + (s1 + rest) == (['.'] + s1) + rest;
    var s2 := ['.'] + s1;
    assert g.minor + (s2 + rest) == (g.minor + s2) + rest;
    var s3 := g.minor + s2;
    assert ['.'] + (s3 + rest) == (['.'] + s3) + rest;
    var s4 := ['.'] + s3;
    assert g.major + (s4 + rest) == (g.major + s4) + rest;
    var s5 := g.major + s4;
    assert (if g.v then ['v'] else []) + (s5 + rest) == ((if g.v then ['v'] else []) + s5) + rest;
  }

  /** A run of digits is split off with whatever digits come after it, and no less. */
  lemma {:induction false} SpanDigitsOver(digits: string, rest: string)
    requires AllDigits(digits)
    ensures SpanDigits(digits + rest) == (digits + SpanDigits(rest).0, SpanDigits(rest).1)
  {
    if digits == [] {
      assert digits + rest == rest;
      assert digits + SpanDigits(rest).0 == SpanDigits(rest).0;
    } else {
      assert (digits + rest)[1..] == digits[1..] + rest;
      SpanDigitsOver(digits[1..], rest);
      assert digits == [digits[0]] + digits[1..];
      assert [digits[0]] + (digits[1..] + SpanDigits(rest).0) == digits + SpanDigits(rest).0;
    }
  }

  lemma {:induction false} SpanWordOver(word: string, rest: string)
    requires AllWord(word)
    ensures SpanWord(word + rest) == (word + SpanWord(rest).0, SpanWord(rest).1)
  {
    if word == [] {
      assert word + rest == rest;
      assert word + SpanWord(rest).0 == SpanWord(rest).0;
    } else {
      assert (word + rest)[1..] == word[1..] + rest;
      SpanWordOver(word[1..], rest);
      assert word == [word[0]] + word[1..];
      assert [word[0]] + (word[1..] + SpanWord(rest).0) == word + SpanWord(rest).0;
    }
  }

  lemma SpanNumberDotOver(digits: string, rest: string)
    requires digits != [] && AllDigits(digits)
    ensures SpanNumberDot(digits + (['.'] + rest)) == Some((digits, rest))
  {
    SpanDigitsOver(digits, ['.'] + rest);
    assert digits + [] == digits;
    assert (['.'] + rest)[1..] == rest;
  }

  /** A group that is there is split off, with whatever word characters come after it. */
  lemma SpanOptionalOver(mark: char, text: Option<string>, rest: string)
    requires text.Some? ==> text.value != [] && AllWord(text.value)
    ensures text.Some? ==>
      SpanOptional(mark, Suffix(mark, text) + rest) == (Some(text.value + SpanWord(rest).0), SpanWord(rest).1)
    ensures text.None? ==> Suffix(mark, text) + rest == rest
  {
    if text.Some? {
      var s := Suffix(mark, text) + rest;
      assert s[1..] == text.value + rest;
      SpanWordOver(text.value, rest);
    }
  }

  /** Whatever text of the grammar begins a tag, no less than it is matched. */
  lemma MatchIsLongest(g: VersionText, rest: string)
    requires g.WellFormed()
    ensures Match(g.PrintThen(rest)).Some?
    ensures |Match(g.PrintThen(rest)).value.1| <= |rest|
  {
    var tail := g.SuffixesThen(rest);
    var afterMajor := g.minor + (['.'] + (g.patch + tail));
    var start := g.major + (['.'] + afterMajor);
    var tag := g.PrintThen(rest);
    assert tag == (if g.v then ['v'] else []) + start;
    assert start[0] == g.major[0];
    assert g.v ==> tag[1..] == start;
    assert !g.v ==> tag == start;
    SpanNumberDotOver(g.major, afterMajor);
    SpanNumberDotOver(g.minor, g.patch + tail);
    SpanDigitsOver(g.patch, tail);
    SuffixesAreSpanned(g, rest);
  }

  /** From the end of the patch number on, every suffix that the text has is split off. */
  lemma SuffixesAreSpanned(g: VersionText, rest: string)
    requires g.WellFormed()
    ensures
      var afterPatch := SpanDigits(g.SuffixesThen(rest)).1;
      var afterPre := SpanOptional('-', afterPatch).1;
      |SpanOptional('+', afterPre).1| <= |rest|
  {
    var withBuild := Suffix('+', g.build) + rest;
    SpanOptionalOver('-', g.pre, withBuild);
    SpanOptionalOver('+', g.build, rest);
    if g.pre.Some? || g.build.Some? {
      assert !IsDigit(g.SuffixesThen(rest)[0]);
    } else {
      assert g.SuffixesThen(rest) == rest;
    }
    if g.build.Some? {
      assert withBuild[0] == '+';
      assert SpanWord(withBuild).0 == [];
      assert g.pre.None? ==> SpanOptional('-', withBuild) == (None, withBuild);
    }
  }

  // ---------- What the scan of a tag promises ----------

  /** The scan of a tag is a prefix of it; it is the longest prefix in the grammar when any prefix is. */
  lemma ScanIsLongestPrefix(tag: string, prefix: string)
    requires prefix <= tag && InGrammar(prefix)
    ensures ScanTag(tag) <= tag
    ensures InGrammar(ScanTag(tag))
    ensures |prefix| <= |ScanTag(tag)|
  {
    var g: VersionText :| g.WellFormed() && g.Print() == prefix;
    var rest := tag[|prefix|..];
    assert prefix + rest == tag;
    PrintThenAppends(g, rest);
    MatchIsLongest(g, rest);
    var (m, left) := Match(tag).value;
    PrintThenAppends(m, left);
    FirstOfPrint(g, rest);
  }

  lemma FirstOfPrint(g: VersionText, rest: string)
    requires g.WellFormed()
    ensures g.PrintThen(rest) != []
    ensures g.PrintThen(rest)[0] == 'v' || IsDigit(g.PrintThen(rest)[0])
  {
    if !g.v {
      assert g.PrintThen(rest)[0] == g.major[0];
    }
  }

  /** When no prefix is in the grammar, a tag that begins with a digit is kept and any other dropped. */
  lemma ScanWithoutVersion(tag: string)
    requires forall prefix | prefix <= tag :: !InGrammar(prefix)
    ensures ScanTag(tag) == if tag != [] && IsDigit(tag[0]) then tag else ""
  {
    if Match(tag).Some? {
      var (m, left) := Match(tag).value;
      PrintThenAppends(m, left);
      assert m.Print() <= tag;
      assert InGrammar(m.Print());
      assert false;
    }
  }

  /** A tag of the grammar is returned whole. */
  lemma ScanKeepsVersions(tag: string)
    requires InGrammar(tag)
    ensures ScanTag(tag) == tag
  {
    ScanIsLongestPrefix(tag, tag);
  }

  /** Scanning what was scanned changes nothing. */
  lemma ScanIsIdempotent(tag: string)
    ensures ScanTag(ScanTag(tag)) == ScanTag(tag)
  {
    if tag != "latest" && tag != "" && Match(tag).Some? {
      assert InGrammar(ScanTag(tag));
      ScanKeepsVersions(ScanTag(tag));
    }
  }

  // ---------- What reading an image reference promises ----------

  lemma AbsentFrom(s: string, c: char, lo: nat, hi: nat)
    requires lo <= hi <= |s| && c !in s[lo..hi]
    ensures forall k | lo <= k < hi :: s[k] != c
  {
    forall k | lo <= k < hi
      ensures s[k] != c
    {
      assert s[lo..hi][k - lo] == s[k];
    }
  }

  lemma IndexOfAt(s: string, c: char, i: nat)
    requires i < |s| && s[i] == c && c !in s[..i]
    ensures IndexOf(s, c) == i
  {
    assert c in s;
    AbsentFrom(s, c, 0, i);
    AbsentFrom(s, c, 0, IndexOf(s, c));
  }

  lemma LastIndexOfAt(s: string, c: char, i: nat)
    requires i < |s| && s[i] == c && c !in s[i + 1..]
    ensures LastIndexOf(s, c) == i
  {
    assert c in s;
    AbsentFrom(s, c, i + 1, |s|);
    AbsentFrom(s, c, LastIndexOf(s, c) + 1, |s|);
  }

  /** A digest, if any, is dropped. */
  lemma DigestIsDropped(name: string, digest: string)
    requires '@' !in name
    requires digest == [] || digest[0] == '@'
    ensures BeforeDigest(name + digest) == name
  {
    var image := name + digest;
    if digest == [] {
      assert image == name;
    } else {
      assert image[..|name|] == name;
      IndexOfAt(image, '@', |name|);
    }
  }

  /** Printing a repository, which may name a registry port, with a tag and an optional digest, and
      reading the version back, is the same as scanning the tag alone. */
  lemma TaggedReferenceReadsBack(repository: string, tag: string, digest: string)
    requires '@' !in repository
    requires '/' !in tag && ':' !in tag && '@' !in tag
    requires digest == [] || digest[0] == '@'
    ensures TagOf(repository + ":" + tag + digest) == Some(tag)
    ensures ExtractVersion(repository + ":" + tag + digest) == ScanTag(tag)
  {
    var name := repository + ":" + tag;
    DigestIsDropped(name, digest);
    assert name[|repository| + 1..] == tag;
    LastIndexOfAt(name, ':', |repository|);
    AbsentFrom(name, '/', |repository| + 1, |name|);
  }

  /** A reference in which a slash comes after every colon has no tag: its colons are of ports. */
  lemma UntaggedReferenceHasNoVersion(path: string, last: string, digest: string)
    requires '@' !in path && '@' !in last && ':' !in last && '/' !in last
    requires digest == [] || digest[0] == '@'
    ensures ExtractVersion(path + "/" + last + digest) == ""
  {
    var name := path + "/" + last;
    DigestIsDropped(name, digest);
    assert name[|path| + 1..] == last;
    LastIndexOfAt(name, '/', |path|);
    AbsentFrom(name, ':', |path| + 1, |name|);
  }

  /** The reference is a repository, a tag and an optional digest. */
  predicate IsTagged(image: string, repository: string, tag: string, digest: string) {
    && image == repository + ":" + tag + digest
    && '@' !in repository
    && '/' !in tag && ':' !in tag && '@' !in tag
    && (digest == [] || digest[0] == '@')
  }

  lemma AbsentBefore(image: string)
    ensures '@' !in BeforeDigest(image)
    ensures BeforeDigest(image) <= image
    ensures var digest := image[|BeforeDigest(image)|..]; digest == [] || digest[0] == '@'
  {
  }

  /** Nothing but a tag yields a version: a reference has a tag only by being a repository, a colon
      and the tag, with at most a digest after them. */
  lemma VersionComesFromATag(image: string) returns (repository: string, digest: string)
    requires TagOf(image).Some?
    ensures IsTagged(image, repository, TagOf(image).value, digest)
  {
    var name := BeforeDigest(image);
    var colon, slash := LastIndexOf(name, ':'), LastIndexOf(name, '/');
    AbsentBefore(image);
    var tag := name[colon + 1..];
    repository, digest := name[..colon], image[|name|..];
    assert name[..colon] + [name[colon]] == name[..colon + 1];
    assert name == repository + ":" + tag;
    assert image == name + digest;
    hide LastIndexOf, IndexOf, BeforeDigest;
    AbsentFrom(name, '/', slash + 1, |name|);
  }

  /** The tags of the references that the source names, and tags that are no versions. */
  lemma ScanExamples()
    ensures ScanTag("1.21.0") == "1.21.0" && ScanTag("v2.1.0") == "v2.1.0" && ScanTag("1.0.0-rc1") == "1.0.0-rc1"
    ensures ScanTag("latest") == "" && ScanTag("") == "" && ScanTag("main") == "" && ScanTag("7") == "7"
  {
    OtherTags();
    hide ScanTag;
    Kept(VersionText(false, "1", "21", "0", None, None), "1.21.0");
    Kept(VersionText(true, "2", "1", "0", None, None), "v2.1.0");
    Kept(VersionText(false, "1", "0", "0", Some("rc1"), None), "1.0.0-rc1");
  }

  lemma OtherTags()
    ensures ScanTag("latest") == "" && ScanTag("") == "" && ScanTag("main") == "" && ScanTag("7") == "7"
  {
    assert SpanDigits("main").0 == "";
    assert SpanDigits("7").1 == "" by {
      SpanDigitsOver("7", "");
    }
  }

  lemma Kept(g: VersionText, tag: string)
    requires g.WellFormed() && g.Print() == tag
    ensures ScanTag(tag) == tag
  {
    ScanKeepsVersions(tag);
  }
}
