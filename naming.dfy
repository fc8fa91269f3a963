/** Component-name derivation: the raw name taken from a git URL and a
    context, and the sanitiser that turns any raw name into a cluster-safe
    identifier with a random suffix. The two random sources (a dictionary
    noun and a 4-character token) are inputs. */
module Naming {
  import opened Types

  // ---------------------------------------------------------------------
  // Character classes

  predicate IsDigit(c: char) { '0' <= c <= '9' }

  predicate IsLowerLetter(c: char) { 'a' <= c <= 'z' }

  predicate IsUpperLetter(c: char) { 'A' <= c <= 'Z' }

  /** The characters the sanitiser keeps: [a-zA-Z0-9-]. */
  predicate IsNameChar(c: char) { IsLowerLetter(c) || IsUpperLetter(c) || IsDigit(c) || c == '-' }

  /** The characters a component name may hold: [a-z0-9-]. */
  predicate IsLowerNameChar(c: char) { IsLowerLetter(c) || IsDigit(c) || c == '-' }

  predicate IsLowerAlnum(c: char) { IsLowerLetter(c) || IsDigit(c) }

  // ---------------------------------------------------------------------
  // Random inputs

  /** gofakeit.Noun(): never empty. */
  type Noun = s: string | s != "" witness "x"

  /** The random values one call of the sanitiser consumes. */
  datatype NameDraw = NameDraw(noun: Noun, suffix: string)

  /** What the random sources are taken to produce: a noun made of
      characters the filter would keep, and GetRandomString(4, true), four
      lower-case alphanumeric characters. */
  predicate ValidNoun(noun: string) { forall i :: 0 <= i < |noun| ==> IsNameChar(noun[i]) }

  predicate ValidSuffix(suffix: string) {
    |suffix| == SuffixLength && forall i :: 0 <= i < |suffix| ==> IsLowerAlnum(suffix[i])
  }

  predicate ValidDraw(d: NameDraw) { ValidNoun(d.noun) && ValidSuffix(d.suffix) }

  // ---------------------------------------------------------------------
  // The sanitiser

  const DigitPrefix: string := "comp-"
  const MaxBaseLength: nat := 58
  const SuffixLength: nat := 4
  const MaxNameLength: nat := 63

  /** regexp `[^a-zA-Z0-9-]` replaced by "": keeps exactly the name characters, in order. */
  function RemoveInvalidChars(s: string): (r: string)
    ensures forall i :: 0 <= i < |r| ==> IsNameChar(r[i])
    ensures |r| <= |s|
  {
    if s == [] then [] else (if IsNameChar(s[0]) then [s[0]] else []) + RemoveInvalidChars(s[1..])
  }

  function ToLowerChar(c: char): char {
    if IsUpperLetter(c) then (c as int + 32) as char else c
  }

  /** strings.ToLower on the characters that can reach it: each upper-case
      letter becomes the lower-case letter whose code is 32 higher, and
      every other character is kept. */
  function ToLower(s: string): (r: string)
    ensures |r| == |s|
    ensures forall i :: 0 <= i < |s| ==>
      && (IsUpperLetter(s[i]) ==> IsLowerLetter(r[i]) && r[i] as int == s[i] as int + 32)
      && (!IsUpperLetter(s[i]) ==> r[i] == s[i])
  {
    seq(|s|, i requires 0 <= i < |s| => ToLowerChar(s[i]))
  }

  /** The name before the random suffix: filtered, replaced by the noun when
      empty, prefixed with "comp-" when digit-leading, lower-cased, cut to 58. */
  function SanitizedBase(name: string, noun: Noun): (b: string)
    ensures 0 < |b| <= MaxBaseLength
    ensures !IsDigit(b[0])
  {
    var filtered := RemoveInvalidChars(name);
    var base := if filtered == "" then noun else filtered;
    var prefixed := if IsDigit(base[0]) then DigitPrefix + base else base;
    var lowered := ToLower(prefixed);
    if |lowered| > MaxBaseLength then lowered[..MaxBaseLength] else lowered
  }

  /** sanitizeComponentName with its two random inputs made explicit. */
  function SanitizeComponentName(name: string, noun: Noun, suffix: string): (r: string)
    ensures |r| <= MaxBaseLength + 1 + |suffix|
    ensures r != "" && !IsDigit(r[0])
    ensures |r| > |suffix| && r[|r| - |suffix| - 1..] == "-" + suffix
  {
    var base := SanitizedBase(name, noun);
    var r := WithSuffix(base, suffix);
    assert |r| - |suffix| - 1 == |base|;
    r
  }

  /** fmt.Sprintf("%s-%s", base, suffix). */
  function WithSuffix(base: string, suffix: string): (r: string)
    ensures |r| == |base| + 1 + |suffix|
    ensures r[..|base|] == base && r[|base|..] == "-" + suffix
    ensures base != "" ==> r[0] == base[0]
  {
    base + "-" + suffix
  }

  /** The requirements the sanitiser's doc comment lists, except "starts
      with an alphabet character", which the code does not guarantee. */
  predicate MeetsNameRules(r: string) {
    && 0 < |r| <= MaxNameLength
    && (forall i :: 0 <= i < |r| ==> IsLowerNameChar(r[i]))
    && !IsDigit(r[0])
    && IsLowerAlnum(r[|r| - 1])
    && (exists i :: 0 <= i < |r| && !IsDigit(r[i]))
  }

  lemma {:induction false} RemoveInvalidCharsKeepsNameChars(s: string)
    requires forall i :: 0 <= i < |s| ==> IsNameChar(s[i])
    ensures RemoveInvalidChars(s) == s
  {
    if s != [] {
      RemoveInvalidCharsKeepsNameChars(s[1..]);
    }
  }

  /** The filter distributes over concatenation, so it is the subsequence of
      name characters. */
  lemma {:induction false} RemoveInvalidCharsConcat(s: string, t: string)
    ensures RemoveInvalidChars(s + t) == RemoveInvalidChars(s) + RemoveInvalidChars(t)
  {
    if s == [] {
      assert s + t == t;
    } else {
      assert (s + t)[1..] == s[1..] + t;
      RemoveInvalidCharsConcat(s[1..], t);
    }
  }

  lemma RemoveInvalidCharsIdempotent(s: string)
    ensures RemoveInvalidChars(RemoveInvalidChars(s)) == RemoveInvalidChars(s)
  {
    RemoveInvalidCharsKeepsNameChars(RemoveInvalidChars(s));
  }

  lemma ToLowerOfNameChars(s: string)
    requires forall i :: 0 <= i < |s| ==> IsNameChar(s[i])
    ensures forall i :: 0 <= i < |ToLower(s)| ==> IsLowerNameChar(ToLower(s)[i])
  {
  }

  /** With a noun of name characters, every character before the suffix is in [a-z0-9-]. */
  lemma SanitizedBaseCharset(name: string, noun: Noun)
    requires ValidNoun(noun)
    ensures forall i :: 0 <= i < |SanitizedBase(name, noun)| ==> IsLowerNameChar(SanitizedBase(name, noun)[i])
  {
    var filtered := RemoveInvalidChars(name);
    var base := if filtered == "" then noun else filtered;
    var prefixed := if IsDigit(base[0]) then DigitPrefix + base else base;
    assert forall i :: 0 <= i < |prefixed| ==> IsNameChar(prefixed[i]);
    ToLowerOfNameChars(prefixed);
  }

  /** With valid random inputs the sanitised name meets the doc comment's
      rules: at most 63 characters from [a-z0-9-], not digit-leading,
      ending in an alphanumeric character, not all digits. */
  lemma SanitizedNameMeetsRules(name: string, d: NameDraw)
    requires ValidDraw(d)
    ensures MeetsNameRules(SanitizeComponentName(name, d.noun, d.suffix))
  {
    var r := SanitizeComponentName(name, d.noun, d.suffix);
    var b := SanitizedBase(name, d.noun);
    SanitizedBaseCharset(name, d.noun);
    assert r == b + ['-'] + d.suffix;
    assert forall i :: 0 <= i < |r| ==> IsLowerNameChar(r[i]) by {
      forall i | 0 <= i < |r| ensures IsLowerNameChar(r[i]) {
        if i < |b| { assert r[i] == b[i]; }
        else if i == |b| { assert r[i] == '-'; }
        else { assert r[i] == d.suffix[i - |b| - 1]; }
      }
    }
    assert r[|r| - 1] == d.suffix[SuffixLength - 1];
    assert !IsDigit(r[0]);
  }

  /** A name of [a-zA-Z0-9-] characters that is not digit-leading is
      lower-cased, cut to its first 58 characters and given the suffix; so a
      lower-case one of at most 58 characters only gains the suffix. */
  lemma SanitizeKeepsCleanName(name: string, noun: Noun, suffix: string)
    requires name != "" && !IsDigit(name[0])
    requires forall i :: 0 <= i < |name| ==> IsNameChar(name[i])
    ensures var lowered := ToLower(name);
      SanitizeComponentName(name, noun, suffix) ==
        (if |name| <= MaxBaseLength then lowered else lowered[..MaxBaseLength]) + "-" + suffix
    ensures |name| <= MaxBaseLength && (forall i :: 0 <= i < |name| ==> IsLowerNameChar(name[i])) ==>
      SanitizeComponentName(name, noun, suffix) == name + "-" + suffix
  {
    RemoveInvalidCharsKeepsNameChars(name);
    if forall i :: 0 <= i < |name| ==> IsLowerNameChar(name[i]) {
      ToLowerKeepsLowerName(name);
    }
  }

  /** Upper-case letters are lowered. */
  lemma SanitizeLowersExample(name: string, noun: Noun, suffix: string)
    requires name == "MyRepo"
    ensures SanitizeComponentName(name, noun, suffix) == "myrepo-" + suffix
  {
    assert forall i :: 0 <= i < |name| ==> IsNameChar(name[i]);
    SanitizeKeepsCleanName(name, noun, suffix);
    LowerExample(name);
  }

  lemma LowerExample(name: string)
    requires name == "MyRepo"
    ensures ToLower(name) == "myrepo"
  {
    var lowered := ToLower(name);
    forall i | 0 <= i < 6 ensures lowered[i] == "myrepo"[i] {
      assert name[i] == (if i == 0 then 'M' else if i == 2 then 'R' else "myrepo"[i]);
    }
  }

  /** An empty raw name (or one with no valid character) falls back to the
      noun, lower-cased and guarded like any other name. */
  lemma SanitizeFallsBackToNoun(name: string, noun: Noun, suffix: string)
    requires forall i :: 0 <= i < |name| ==> !IsNameChar(name[i])
    requires ValidNoun(noun)
    ensures SanitizeComponentName(name, noun, suffix) == SanitizeComponentName(noun, noun, suffix)
  {
    RemoveInvalidCharsDropsAll(name);
    RemoveInvalidCharsKeepsNameChars(noun);
  }

  lemma {:induction false} RemoveInvalidCharsDropsAll(s: string)
    requires forall i :: 0 <= i < |s| ==> !IsNameChar(s[i])
    ensures RemoveInvalidChars(s) == ""
  {
    if s != [] {
      RemoveInvalidCharsDropsAll(s[1..]);
    }
  }

  /** A digit-leading name of [a-zA-Z0-9-] characters gets the "comp-"
      prefix, is lower-cased, cut to 58 characters and given the suffix; so
      a lower-case one of at most 53 characters gains only prefix and suffix. */
  lemma SanitizePrefixesDigitLeading(name: string, noun: Noun, suffix: string)
    requires name != "" && IsDigit(name[0])
    requires forall i :: 0 <= i < |name| ==> IsNameChar(name[i])
    ensures var lowered := ToLower(DigitPrefix + name);
      SanitizeComponentName(name, noun, suffix) ==
        (if |lowered| <= MaxBaseLength then lowered else lowered[..MaxBaseLength]) + "-" + suffix
    ensures |name| <= MaxBaseLength - |DigitPrefix| && (forall i :: 0 <= i < |name| ==> IsLowerNameChar(name[i])) ==>
      SanitizeComponentName(name, noun, suffix) == DigitPrefix + name + "-" + suffix
  {
    DigitLeadingBase(name, noun);
    SanitizeIsBaseWithSuffix(name, noun, suffix);
    if |name| <= MaxBaseLength - |DigitPrefix| && forall i :: 0 <= i < |name| ==> IsLowerNameChar(name[i]) {
      DigitPrefixKeepsLowerName(name);
    }
  }

  lemma SanitizeIsBaseWithSuffix(name: string, noun: Noun, suffix: string)
    ensures SanitizeComponentName(name, noun, suffix) == SanitizedBase(name, noun) + "-" + suffix
  {
  }

  lemma DigitPrefixKeepsLowerName(name: string)
    requires forall i :: 0 <= i < |name| ==> IsLowerNameChar(name[i])
    ensures ToLower(DigitPrefix + name) == DigitPrefix + name
  {
    var prefixed := DigitPrefix + name;
    forall i | 0 <= i < |prefixed| ensures IsLowerNameChar(prefixed[i]) {
      if i >= |DigitPrefix| { assert prefixed[i] == name[i - |DigitPrefix|]; }
    }
    ToLowerKeepsLowerName(prefixed);
  }

  lemma DigitLeadingBase(name: string, noun: Noun)
    requires name != "" && IsDigit(name[0])
    requires forall i :: 0 <= i < |name| ==> IsNameChar(name[i])
    ensures var lowered := ToLower(DigitPrefix + name);
      SanitizedBase(name, noun) == if |lowered| <= MaxBaseLength then lowered else lowered[..MaxBaseLength]
  {
    RemoveInvalidCharsKeepsNameChars(name);
  }

  lemma ToLowerKeepsLowerName(s: string)
    requires forall i :: 0 <= i < |s| ==> IsLowerNameChar(s[i])
    ensures ToLower(s) == s
  {
  }

  /** The doc comment's "starts with an alphabet character" does not hold:
      a leading hyphen survives the filter. */
  lemma SanitizeKeepsLeadingHyphen(noun: Noun, suffix: string)
    ensures SanitizeComponentName("-x", noun, suffix)[0] == '-'
  {
    RemoveInvalidCharsKeepsNameChars("-x");
  }

  // ---------------------------------------------------------------------
  // The raw name

  /** Drops one trailing '/'. */
  function TrimTrailingSlash(url: string): (r: string)
    ensures url != "" && url[|url| - 1] == '/' ==> r + "/" == url
    ensures (url == "" || url[|url| - 1] != '/') ==> r == url
  {
    if url != "" && url[|url| - 1] == '/' then url[..|url| - 1] else url
  }

  /** url[strings.LastIndex(url, "/")+1:]: the longest suffix without '/'. */
  function LastSegment(url: string): (r: string)
    ensures |r| <= |url| && r == url[|url| - |r|..]
    ensures forall i :: 0 <= i < |r| ==> r[i] != '/'
    ensures |r| < |url| ==> url[|url| - |r| - 1] == '/'
  {
    if url == "" || url[|url| - 1] == '/' then ""
    else LastSegment(url[..|url| - 1]) + [url[|url| - 1]]
  }

  const GitMarker: string := ".git"

  predicate GitAt(s: string, i: nat) { i + |GitMarker| <= |s| && s[i..i + |GitMarker|] == GitMarker }

  /** strings.Split(s, ".git")[0]: everything before the FIRST ".git", or s
      when there is none. */
  function CutAtFirstGit(s: string): (r: string)
    ensures |r| <= |s| && r == s[..|r|]
    ensures |r| == |s| || GitAt(s, |r|)
    ensures forall i: nat :: i < |r| ==> !GitAt(s, i)
  {
    if s == [] then []
    else if GitAt(s, 0) then []
    else
      var rest := CutAtFirstGit(s[1..]);
      GitAtShifts(s);
      assert [s[0]] + rest == s[..|rest| + 1];
      [s[0]] + rest
  }

  /** ".git" at i > 0 in s is ".git" at i - 1 in s without its first character. */
  lemma GitAtShifts(s: string)
    requires s != []
    ensures forall i: nat :: 0 < i ==> (GitAt(s, i) <==> GitAt(s[1..], i - 1))
  {
    forall i: nat | 0 < i ensures GitAt(s, i) <==> GitAt(s[1..], i - 1) {
      if i + |GitMarker| <= |s| {
        var here, there := s[i..i + |GitMarker|], s[1..][i - 1..i - 1 + |GitMarker|];
        forall j | 0 <= j < |GitMarker| ensures here[j] == there[j] {
          assert s[1..][i - 1 + j] == s[i + j];
        }
        assert here == there;
      }
    }
  }

  predicate OccursAt(s: string, k: nat, t: string) { k + |t| <= |s| && s[k..k + |t|] == t }

  /** The last segment of p + "/" + seg is seg, whatever p holds. */
  lemma LastSegmentAfterSlash(p: string, seg: string)
    requires forall i :: 0 <= i < |seg| ==> seg[i] != '/'
    ensures LastSegment(p + "/" + seg) == seg
  {
    var url := p + "/" + seg;
    assert url[|url| - |seg| - 1] == '/';
    assert url[|url| - |seg|..] == seg;
    SuffixWithoutSlashIsUnique(url, LastSegment(url), seg);
  }

  /** Two '/'-free suffixes of url that both start right after a '/' (or at
      the start) are equal. */
  lemma SuffixWithoutSlashIsUnique(url: string, r: string, seg: string)
    requires |r| <= |url| && r == url[|url| - |r|..]
    requires forall i :: 0 <= i < |r| ==> r[i] != '/'
    requires |r| < |url| ==> url[|url| - |r| - 1] == '/'
    requires |seg| < |url| && url[|url| - |seg| - 1] == '/' && url[|url| - |seg|..] == seg
    requires forall i :: 0 <= i < |seg| ==> seg[i] != '/'
    ensures r == seg
  {
  }

  /** Where the first ".git" starts at k, the cut keeps exactly s[..k]. */
  lemma CutAtFirstGitIsFirstOccurrence(s: string, k: nat)
    requires GitAt(s, k)
    requires forall i: nat :: i < k ==> !GitAt(s, i)
    ensures CutAtFirstGit(s) == s[..k]
  {
  }

  /** A string without '.' holds no ".git" and is not cut. */
  lemma CutAtFirstGitWithoutDot(s: string)
    requires forall i :: 0 <= i < |s| ==> s[i] != '.'
    ensures CutAtFirstGit(s) == s
  {
    assert forall i: nat :: !GitAt(s, i);
  }

  /** A context that keeps the bare repository name. */
  predicate IsRootContext(context: string) { context == "" || context == "./" || context == "." }

  /** The name getComponentName hands to the sanitiser. */
  function RawComponentName(url: string, context: string): string {
    if url == "" then ""
    else
      var repoName := CutAtFirstGit(LastSegment(TrimTrailingSlash(url)));
      if IsRootContext(context) then repoName else context + "-" + repoName
  }

  /** What the cut keeps holds no ".git" at all. */
  lemma CutAtFirstGitHasNoGit(s: string)
    ensures forall i: nat :: !GitAt(CutAtFirstGit(s), i)
  {
    var r := CutAtFirstGit(s);
    forall i: nat | GitAt(r, i) ensures false {
      assert r[i..i + |GitMarker|] == s[i..i + |GitMarker|];
      assert GitAt(s, i);
    }
  }

  /** The raw repository name is a '/'-free piece of the URL holding no ".git". */
  lemma RawNameIsRepositorySegment(url: string, context: string)
    requires url != "" && IsRootContext(context)
    ensures forall i :: 0 <= i < |RawComponentName(url, context)| ==> RawComponentName(url, context)[i] != '/'
    ensures forall i: nat :: !GitAt(RawComponentName(url, context), i)
    ensures exists k: nat :: OccursAt(url, k, RawComponentName(url, context))
  {
    var trimmed := TrimTrailingSlash(url);
    var seg := LastSegment(trimmed);
    var r := CutAtFirstGit(seg);
    assert r == RawComponentName(url, context);
    CutAtFirstGitHasNoGit(seg);
    var k := |trimmed| - |seg|;
    assert OccursAt(url, k, seg) by {
      assert trimmed == url[..|trimmed|];
      assert url[k..k + |seg|] == trimmed[k..];
    }
    PrefixOccursToo(url, k, seg, r);
  }

  /** A prefix of a piece of s occurs in s where the piece does. */
  lemma PrefixOccursToo(s: string, k: nat, t: string, r: string)
    requires OccursAt(s, k, t)
    requires |r| <= |t| && r == t[..|r|]
    ensures OccursAt(s, k, r)
  {
    assert s[k..k + |r|] == s[k..k + |t|][..|r|];
  }

  /** A context other than "", "." and "./" is joined to the repository name with '-'. */
  lemma RawNameWithContext(url: string, context: string)
    requires url != "" && !IsRootContext(context)
    ensures RawComponentName(url, context) == context + "-" + RawComponentName(url, "")
  {
  }

  /** getComponentName, with the random values for its sanitiser call. */
  function GetComponentName(gitSource: GitSource, draw: NameDraw): string {
    SanitizeComponentName(RawComponentName(gitSource.url, gitSource.context), draw.noun, draw.suffix)
  }

  /** With well-formed random values the component name meets the name
      rules, and a source without a URL is named as if the noun were its
      repository. */
  lemma GetComponentNameMeetsRules(gitSource: GitSource, draw: NameDraw)
    requires ValidDraw(draw)
    ensures MeetsNameRules(GetComponentName(gitSource, draw))
    ensures gitSource.url == "" ==> GetComponentName(gitSource, draw) == SanitizeComponentName(draw.noun, draw.noun, draw.suffix)
  {
    SanitizedNameMeetsRules(RawComponentName(gitSource.url, gitSource.context), draw);
    if gitSource.url == "" {
      SanitizeFallsBackToNoun("", draw.noun, draw.suffix);
    }
  }

  // ---------------------------------------------------------------------
  // Worked examples

  lemma GitRepoExample()
    ensures RawComponentName("https://host/git-repo.git", "") == "git-repo"
  {
    var s := "git-repo.git";
    assert "https://host/git-repo.git" == "https://host" + "/" + s;
    assert GitAt(s, 8) && s[..8] == "git-repo";
    RawNameOfRepositoryUrl("https://host", s, 8);
  }

  /** The raw name of p/seg, for a '/'-free seg whose first '.' starts the
      first ".git", at k, is seg[..k]. */
  lemma RawNameOfRepositoryUrl(p: string, seg: string, k: nat)
    requires seg != "" && forall i :: 0 <= i < |seg| ==> seg[i] != '/'
    requires GitAt(seg, k) && forall i :: 0 <= i < k ==> seg[i] != '.'
    ensures RawComponentName(p + "/" + seg, "") == seg[..k]
  {
    var url := p + "/" + seg;
    assert url[|url| - 1] == seg[|seg| - 1];
    assert TrimTrailingSlash(url) == url;
    LastSegmentAfterSlash(p, seg);
    NoGitBeforeFirstDot(seg, k);
    CutAtFirstGitIsFirstOccurrence(seg, k);
  }


  lemma NoGitBeforeFirstDot(s: string, k: nat)
    requires k <= |s| && forall i :: 0 <= i < k ==> s[i] != '.'
    ensures forall i: nat :: i < k ==> !GitAt(s, i)
  {
    forall i: nat | i < k && i + |GitMarker| <= |s| ensures !GitAt(s, i) {
      assert s[i..i + |GitMarker|][0] == s[i];
    }
  }

  /** One trailing '/' does not change the raw name. */
  lemma RawNameIgnoresTrailingSlash(url: string, context: string)
    requires url != "" && url[|url| - 1] != '/'
    ensures RawComponentName(url + "/", context) == RawComponentName(url, context)
  {
    assert TrimTrailingSlash(url + "/") == url;
  }

  lemma TrailingSlashExample()
    ensures RawComponentName("https://host/git-repo.git/", "./") == "git-repo"
  {
    var url := "https://host/git-repo.git";
    assert url + "/" == "https://host/git-repo.git/";
    RawNameIgnoresTrailingSlash(url, "./");
    GitRepoExample();
  }

  /** The context "/context" is joined with '-'... */
  lemma ContextExample()
    ensures RawComponentName("https://host/git-repo.git", "/context") == "/context-git-repo"
  {
    var url, context := "https://host/git-repo.git", "/context";
    assert context + "-" + "git-repo" == "/context-git-repo";
    GitRepoExample();
    RawNameWithContext(url, context);
  }

  /** A leading '/' (from a context such as "/context") is filtered away. */
  lemma SanitizeDropsLeadingSlash(clean: string, noun: Noun, suffix: string)
    requires 0 < |clean| <= MaxBaseLength && !IsDigit(clean[0])
    requires forall i :: 0 <= i < |clean| ==> IsLowerNameChar(clean[i])
    ensures SanitizeComponentName("/" + clean, noun, suffix) == clean + "-" + suffix
  {
    RemoveInvalidCharsConcat("/", clean);
    assert RemoveInvalidChars("/") == "";
    assert RemoveInvalidChars("/" + clean) == RemoveInvalidChars(clean);
    SanitizeSeesOnlyFiltered("/" + clean, clean, noun, suffix);
    SanitizeKeepsCleanName(clean, noun, suffix);
  }

  /** The sanitiser sees a name only through the filter. */
  lemma SanitizeSeesOnlyFiltered(a: string, b: string, noun: Noun, suffix: string)
    requires RemoveInvalidChars(a) == RemoveInvalidChars(b)
    ensures SanitizeComponentName(a, noun, suffix) == SanitizeComponentName(b, noun, suffix)
  {
    assert SanitizedBase(a, noun) == SanitizedBase(b, noun);
  }

  /** ...and loses its slash in the sanitiser. */
  lemma ContextSanitizeExample(noun: Noun, suffix: string)
    ensures SanitizeComponentName("/context-git-repo", noun, suffix) == "context-git-repo" + "-" + suffix
  {
    var clean := "context-git-repo";
    assert "/context-git-repo" == "/" + clean;
    SanitizeDropsLeadingSlash(clean, noun, suffix);
  }

  /** The cut is at the first ".git", not only at a trailing one. */
  lemma FirstGitCutExample()
    ensures RawComponentName("https://host/org/my.github.io", "") == "my"
  {
    var s := "my.github.io";
    assert "https://host/org/my.github.io" == "https://host/org" + "/" + s;
    assert GitAt(s, 2) && s[..2] == "my";
    RawNameOfRepositoryUrl("https://host/org", s, 2);
  }

}
