/** Docker image references and their normal form. */
module References {
  import opened Wrappers
  import opened Text

  const MAX_REFERENCE := 512

  predicate Lower(c: char) { 'a' <= c <= 'z' }
  predicate Upper(c: char) { 'A' <= c <= 'Z' }
  predicate Digit(c: char) { '0' <= c <= '9' }
  predicate Alnum(c: char) { Lower(c) || Upper(c) || Digit(c) }
  predicate ReferenceChar(c: char) { Alnum(c) || c == '.' || c == '_' || c == ':' || c == '/' || c == '@' || c == '-' }
  predicate TagChar(c: char) { Alnum(c) || c == '_' || c == '.' || c == '-' }
  predicate HexChar(c: char) { Digit(c) || 'a' <= c <= 'f' }

  predicate WellFormed(reference: string) {
    reference != "" && Alnum(reference[0]) && forall c :: c in reference ==> ReferenceChar(c)
  }

  /** A full digest; image identifiers have the same form. */
  predicate ImageId(text: string) {
    |text| == 71 && text[..7] == "sha256:" && forall c :: c in text[7..] ==> HexChar(c)
  }

  predicate TagOk(tag: string) {
    1 <= |tag| <= 128 && (Alnum(tag[0]) || tag[0] == '_') && forall c :: c in tag ==> TagChar(c)
  }

  predicate HasUpper(text: string) {
    exists c :: c in text && Upper(c)
  }

  /** The list with what follows the first `:` cut off its last component. */
  function CutTag(raw: seq<string>): (parts: seq<string>)
    requires raw != []
    ensures parts != []
  {
    raw[..|raw| - 1] + [Before(Last(raw), ':')]
  }

  /** Path components of the repository, with digest and tag cut off. */
  function Parts(reference: string): (parts: seq<string>)
    ensures parts != []
  {
    CutTag(Split(Before(reference, '@'), '/'))
  }

  predicate GoodParts(parts: seq<string>) {
    forall p :: p in parts ==> p != "" && p != "." && p != ".."
  }

  predicate HostLike(part: string) {
    '.' in part || ':' in part || part == "localhost"
  }

  function WithHost(parts: seq<string>): (r: seq<string>)
    requires parts != []
    ensures |r| >= 2
  {
    if |parts| == 1 || !HostLike(parts[0]) then ["docker.io"] + parts else parts
  }

  function WithCanonicalHub(parts: seq<string>): (r: seq<string>)
    requires |parts| >= 2
    ensures |r| == |parts|
  {
    if parts[0] == "index.docker.io" then ["docker.io"] + parts[1..] else parts
  }

  function WithLibrary(parts: seq<string>): (r: seq<string>)
    requires |parts| >= 2
    ensures |r| >= 2
  {
    if parts[0] == "docker.io" && |parts| == 2 then [parts[0], "library", parts[1]] else parts
  }

  function Qualify(parts: seq<string>): (r: seq<string>)
    requires parts != []
    ensures |r| >= 2
  {
    WithLibrary(WithCanonicalHub(WithHost(parts)))
  }

  /** The normalized repository, or nothing where the reference is refused. */
  function Repository(reference: string): (r: Option<string>) {
    if |reference| > MAX_REFERENCE || !WellFormed(reference) then None
    else if !GoodParts(Parts(reference)) then None
    else
      var result := Join(Qualify(Parts(reference)), '/');
      if HasUpper(result) then None else Some(result)
  }

  /** The tag that a reference without digest asks for. */
  function TagOf(reference: string): (tag: string) {
    var tail := Last(Split(reference, '/'));
    if ':' in tail then After(tail, ':') else "latest"
  }

  /** The normalized reference: repository with digest, or with tag. */
  function ReferenceName(reference: string): (r: Option<string>) {
    if Repository(reference) == None then None
    else
      var repo := Repository(reference).value;
      if '@' in reference then
        var digest := After(reference, '@');
        if ImageId(digest) then Some(repo + ("@" + digest)) else None
      else
        var tag := TagOf(reference);
        if TagOk(tag) then Some(repo + (":" + tag)) else None
  }

  /** The edits of the list of parts that add the host and the library. */
  method QualifyInSteps(raw: seq<string>) returns (parts: seq<string>)
    requires raw != []
    ensures parts == Qualify(raw)
  {
    parts := raw;
    if |parts| == 1 || !HostLike(parts[0]) {
      parts := ["docker.io"] + parts;
    }
    if parts[0] == "index.docker.io" {
      parts := parts[0 := "docker.io"];
    }
    assert parts == WithCanonicalHub(WithHost(raw));
    if parts[0] == "docker.io" && |parts| == 2 {
      parts := parts[..1] + ["library"] + parts[1..];
    }
  }

  /** The source edits one list of parts step by step; the result is the repository above. */
  method NormalizeRepository(reference: string) returns (r: Option<string>)
    ensures r == Repository(reference)
  {
    if |reference| > MAX_REFERENCE || !WellFormed(reference) {
      return None;
    }
    var parts := Split(Before(reference, '@'), '/');
    parts := parts[|parts| - 1 := Before(Last(parts), ':')];
    assert parts == Parts(reference);
    if !GoodParts(parts) {
      return None;
    }
    parts := QualifyInSteps(parts);
    var result := Join(parts, '/');
    if HasUpper(result) {
      return None;
    }
    return Some(result);
  }

  predicate PartChar(c: char) {
    ReferenceChar(c) && c != '/' && c != '@'
  }

  predicate CleanPart(part: string) {
    forall c :: c in part ==> PartChar(c)
  }

  /** A list of parts that normalization leaves alone. */
  predicate Normal(parts: seq<string>) {
    |parts| >= 2 && GoodParts(parts) && HostLike(parts[0]) && parts[0] != "index.docker.io" &&
    !(parts[0] == "docker.io" && |parts| == 2) &&
    ':' !in Last(parts) && parts[0] != "" && Alnum(parts[0][0]) &&
    forall p :: p in parts ==> CleanPart(p)
  }

  lemma NormalIsFixed(parts: seq<string>)
    requires Normal(parts)
    ensures Qualify(parts) == parts
  {
  }

  lemma BeforeKeeps(s: string, c: char, x: char)
    requires x in Before(s, c)
    ensures x in s && x != c
  {
  }

  /** The components of an accepted reference come from its characters. */
  lemma PartsAreClean(reference: string)
    requires WellFormed(reference) && GoodParts(Parts(reference))
    ensures forall p :: p in Parts(reference) ==> CleanPart(p)
    ensures ':' !in Last(Parts(reference)) && Parts(reference)[0] != "" && Alnum(Parts(reference)[0][0])
  {
    var base := Before(reference, '@');
    var raw := Split(base, '/');
    JoinSplit(base, '/');
    var parts := Parts(reference);
    forall p | p in parts
      ensures CleanPart(p)
    {
      forall c | c in p
        ensures PartChar(c)
      {
        var q := if p in raw then p else Last(raw);
        if p !in raw {
          BeforeKeeps(Last(raw), ':', c);
        }
        PartChars(raw, '/', q, c);
        BeforeKeeps(reference, '@', c);
      }
    }
    FirstCharKept(base);
  }

  lemma FirstCharKept(base: string)
    requires GoodParts(CutTag(Split(base, '/')))
    ensures var parts := CutTag(Split(base, '/'));
            parts[0] != "" && base != "" && parts[0][0] == base[0]
  {
    var raw := Split(base, '/');
    var parts := CutTag(raw);
    assert parts[0] in parts;
    JoinSplit(base, '/');
    assert raw[0][0] == parts[0][0];
  }

  lemma QualifyGivesNormal(parts: seq<string>)
    requires parts != [] && GoodParts(parts) && ':' !in Last(parts) && parts[0] != "" && Alnum(parts[0][0])
    requires forall p :: p in parts ==> CleanPart(p)
    ensures Normal(Qualify(parts))
  {
    var q := Qualify(parts);
    LiteralsAreClean();
    forall p | p in q
      ensures p != "" && p != "." && p != ".." && CleanPart(p)
    {
      assert p in parts || p == "docker.io" || p == "library";
    }
    assert Last(q) == Last(parts);
  }

  lemma LiteralsAreClean()
    ensures CleanPart("docker.io") && CleanPart("library")
    ensures HostLike("docker.io") && Alnum("docker.io"[0])
  {
    assert "docker.io"[6] == '.';
  }

  lemma CutTagIs(raw: seq<string>, parts: seq<string>)
    requires parts != [] && |raw| == |parts|
    requires raw[..|raw| - 1] == parts[..|parts| - 1] && Before(Last(raw), ':') == Last(parts)
    ensures CutTag(raw) == parts
  {
    assert parts == parts[..|parts| - 1] + [Last(parts)];
  }

  /** Components that a reference can be joined from and read back. */
  predicate Plain(parts: seq<string>) {
    parts != [] && GoodParts(parts) && ':' !in Last(parts) && parts[0] != "" && Alnum(parts[0][0]) &&
    forall p :: p in parts ==> CleanPart(p)
  }

  lemma PlainTextIsClean(parts: seq<string>)
    requires Plain(parts)
    ensures Separated(parts, '/')
    ensures WellFormed(Join(parts, '/')) && '@' !in Join(parts, '/')
  {
    var n := Join(parts, '/');
    forall c | c in n
      ensures ReferenceChar(c) && c != '@'
    {
      JoinedChars(parts, '/', c);
    }
    assert n[0] == parts[0][0];
    forall k | 0 <= k < |parts|
      ensures '/' !in parts[k]
    {
      assert parts[k] in parts;
    }
  }

  /** Reading a joined list back gives the list. */
  lemma PlainTextParts(parts: seq<string>)
    requires Plain(parts)
    ensures Separated(parts, '/')
    ensures var n := Join(parts, '/'); WellFormed(n) && Split(n, '/') == parts && Parts(n) == parts && '@' !in n
  {
    PlainTextIsClean(parts);
    SplitJoin(parts, '/');
    NoIndex(Join(parts, '/'), '@');
    NoIndex(Last(parts), ':');
    CutTagIs(parts, parts);
  }

  lemma NormalOf(reference: string) returns (parts: seq<string>)
    requires Repository(reference).Some?
    ensures Normal(parts) && Join(parts, '/') == Repository(reference).value && parts == Qualify(Parts(reference))
  {
    PartsAreClean(reference);
    parts := Qualify(Parts(reference));
    QualifyGivesNormal(Parts(reference));
  }

  /** A normalized repository is its own normal form, exactly when it is short enough to be read again. */
  lemma RepositoryIsIdempotent(reference: string)
    requires Repository(reference).Some?
    ensures var n := Repository(reference).value;
            Repository(n) == if |n| <= MAX_REFERENCE then Some(n) else None
  {
    var parts := NormalOf(reference);
    PlainTextParts(parts);
    NormalIsFixed(parts);
  }

  predicate Suffix(t: string) {
    forall c :: c in t ==> ReferenceChar(c)
  }

  lemma AppendKeepsForm(a: string, t: string)
    requires WellFormed(a) && Suffix(t)
    ensures WellFormed(a + t)
  {
    assert (a + t)[0] == a[0];
    forall c | c in a + t
      ensures ReferenceChar(c)
    {
      assert c in a || c in t;
    }
  }

  lemma TagIsSuffix(tag: string)
    requires TagOk(tag)
    ensures Suffix(":" + tag) && '/' !in ":" + tag && '@' !in ":" + tag
  {
    forall c | c in ":" + tag
      ensures ReferenceChar(c) && c != '/' && c != '@'
    {
      assert c == ':' || c in tag;
    }
  }

  lemma DigestIsSuffix(digest: string)
    requires ImageId(digest)
    ensures Suffix("@" + digest)
  {
    assert digest == "sha256:" + digest[7..];
    forall c | c in "@" + digest
      ensures ReferenceChar(c)
    {
      assert c == '@' || c in "sha256:" || c in digest[7..];
    }
  }

  lemma SplitWithSuffix(parts: seq<string>, t: string)
    requires parts != [] && Separated(parts, '/') && '/' !in t
    ensures Split(Join(parts, '/') + t, '/') == parts[..|parts| - 1] + [Last(parts) + t]
  {
    JoinAppend(parts, '/', t);
    SplitJoin(parts[..|parts| - 1] + [Last(parts) + t], '/');
  }

  /** What a normalized tagged reference reads back as. */
  lemma TaggedParts(parts: seq<string>, tag: string)
    requires Normal(parts) && TagOk(tag)
    ensures var n := Join(parts, '/') + (":" + tag);
            WellFormed(n) && '@' !in n && Parts(n) == parts &&
            Last(Split(n, '/')) == Last(parts) + (":" + tag)
  {
    var repo, t := Join(parts, '/'), ":" + tag;
    var n := repo + t;
    PlainTextParts(parts);
    TagIsSuffix(tag);
    AppendKeepsForm(repo, t);
    NoIndex(n, '@');
    SplitWithSuffix(parts, t);
    SplitsAt(Last(parts), ':', tag);
    CutTagIs(parts[..|parts| - 1] + [Last(parts) + t], parts);
  }

  /** What a normalized reference with digest reads back as. */
  lemma DigestParts(parts: seq<string>, digest: string)
    requires Normal(parts) && ImageId(digest)
    ensures var n := Join(parts, '/') + ("@" + digest);
            WellFormed(n) && '@' in n && Parts(n) == parts && After(n, '@') == digest
  {
    var repo := Join(parts, '/');
    var n := repo + ("@" + digest);
    PlainTextParts(parts);
    DigestIsSuffix(digest);
    AppendKeepsForm(repo, "@" + digest);
    SplitsAt(repo, '@', digest);
    assert n[|repo|] == '@';
    NoIndex(Last(parts), ':');
    CutTagIs(parts, parts);
  }

  /** A normalized reference reads back as itself and has the same repository, exactly when it is short
      enough to be read again. */
  lemma ReferenceNameIsNormalForm(reference: string)
    requires ReferenceName(reference).Some?
    ensures var n := ReferenceName(reference).value;
            if |n| <= MAX_REFERENCE then ReferenceName(n) == Some(n) && Repository(n) == Repository(reference)
            else ReferenceName(n) == None && Repository(n) == None
  {
    var parts := NormalOf(reference);
    NormalIsFixed(parts);
    var n := ReferenceName(reference).value;
    var repo := Join(parts, '/');
    if '@' in reference {
      DigestParts(parts, After(reference, '@'));
    } else {
      var tag := TagOf(reference);
      TaggedParts(parts, tag);
      SplitsAt(Last(parts), ':', tag);
      assert (Last(parts) + (":" + tag))[|Last(parts)|] == ':';
    }
  }

  /** The ways to write an image of Docker's own library. */
  function Spelling(name: string, k: nat): (parts: seq<string>)
    requires k < 5
    ensures parts != [] && Last(parts) == name
    ensures forall p :: p in parts ==> p == name || p == "library" || p == "docker.io" || p == "index.docker.io"
  {
    match k
    case 0 => [name]
    case 1 => ["library", name]
    case 2 => ["docker.io", name]
    case 3 => ["index.docker.io", name]
    case 4 => ["docker.io", "library", name]
  }

  /** All of them that are short enough to be read name the same repository. */
  lemma LibrarySpellings(name: string, k: nat)
    requires k < 5 && Plain([name]) && !HostLike(name)
    ensures var text := Join(Spelling(name, k), '/');
            Repository(text) ==
            if |text| <= MAX_REFERENCE && !HasUpper(name) then Some("docker.io/library/" + name) else None
  {
    SpellingIsPlain(name, k);
    QualifiedSpelling(name, k);
    JoinedHub(name);
    PlainReads(Spelling(name, k), ["docker.io", "library", name], "docker.io/library/" + name);
  }

  lemma PlainReads(parts: seq<string>, full: seq<string>, repo: string)
    requires Plain(parts) && Qualify(parts) == full && full != [] && Join(full, '/') == repo
    ensures var text := Join(parts, '/');
            Repository(text) == if |text| <= MAX_REFERENCE && !HasUpper(repo) then Some(repo) else None
  {
    PlainTextParts(parts);
  }

  lemma QualifiedSpelling(name: string, k: nat)
    requires k < 5 && !HostLike(name)
    ensures Qualify(Spelling(name, k)) == ["docker.io", "library", name]
  {
    HubIsClean();
    match k
    case 0 => assert WithHost([name]) == ["docker.io", name];
    case 1 => assert WithHost(["library", name]) == ["docker.io", "library", name];
    case 2 => assert WithCanonicalHub(["docker.io", name]) == ["docker.io", name];
    case 3 => assert WithCanonicalHub(["index.docker.io", name]) == ["docker.io", name];
    case 4 => assert WithHost(["docker.io", "library", name]) == ["docker.io", "library", name];
  }

  lemma SpellingIsPlain(name: string, k: nat)
    requires k < 5 && Plain([name])
    ensures Plain(Spelling(name, k))
  {
    HubIsClean();
    assert name in [name] && [name][0] == name;
    assert "docker.io"[0] == 'd' && "index.docker.io"[0] == 'i' && "library"[0] == 'l';
  }

  lemma HubIsClean()
    ensures CleanPart("docker.io") && CleanPart("library") && CleanPart("index.docker.io")
    ensures HostLike("docker.io") && HostLike("index.docker.io") && !HostLike("library")
  {
    assert "docker.io"[6] == '.' && "index.docker.io"[5] == '.';
  }

  lemma JoinedHub(name: string)
    ensures Join(["docker.io", "library", name], '/') == "docker.io/library/" + name
    ensures HasUpper("docker.io/library/" + name) <==> HasUpper(name)
  {
    var all := ["docker.io", "library", name];
    assert all[1..] == ["library", name] && ["library", name][1..] == [name];
    assert Join(["library", name], '/') == "library" + (['/'] + name);
    assert forall c :: c in "docker.io/library/" + name <==> c in "docker.io/library/" || c in name;
  }

  /** A tag put behind a reference that has none leaves its components alone. */
  lemma TagAppended(reference: string, tag: string)
    requires WellFormed(reference) && TagOk(tag) && '@' !in reference && ':' !in Last(Split(reference, '/'))
    ensures var n := reference + (":" + tag);
            WellFormed(n) && '@' !in n && Parts(n) == Parts(reference) &&
            Last(Split(n, '/')) == Last(Split(reference, '/')) + (":" + tag)
  {
    var raw, t := Split(reference, '/'), ":" + tag;
    TagIsSuffix(tag);
    AppendKeepsForm(reference, t);
    JoinSplit(reference, '/');
    SplitWithSuffix(raw, t);
    NoIndex(reference, '@');
    NoIndex(reference + t, '@');
    NoIndex(Last(raw), ':');
    SplitsAt(Last(raw), ':', tag);
    CutTagIs(raw, raw);
    CutTagIs(raw[..|raw| - 1] + [Last(raw) + t], raw);
  }

  lemma AppendedTag(reference: string, tag: string)
    requires WellFormed(reference) && TagOk(tag) && '@' !in reference && ':' !in Last(Split(reference, '/'))
    ensures TagOf(reference + (":" + tag)) == tag
  {
    var tail := Last(Split(reference, '/'));
    TagAppended(reference, tag);
    SplitsAt(tail, ':', tag);
    assert (tail + (":" + tag))[|tail|] == ':';
  }

  lemma SameComponentsSameRepository(a: string, b: string)
    requires WellFormed(a) && WellFormed(b) && |a| <= MAX_REFERENCE && |b| <= MAX_REFERENCE && Parts(a) == Parts(b)
    ensures Repository(a) == Repository(b)
  {
  }

  lemma NameWithTag(reference: string)
    requires Repository(reference).Some? && '@' !in reference && TagOk(TagOf(reference))
    ensures ReferenceName(reference) == Some(Repository(reference).value + (":" + TagOf(reference)))
  {
  }

  /** A reference without tag and digest is the same as with the tag `latest`. */
  lemma LatestIsDefault(reference: string)
    requires Repository(reference).Some? && '@' !in reference && ':' !in Last(Split(reference, '/'))
    ensures ReferenceName(reference) == Some(Repository(reference).value + (":" + "latest"))
    ensures var written := reference + (":" + "latest");
            ReferenceName(written) == if |written| <= MAX_REFERENCE then ReferenceName(reference) else None
  {
    LatestIsTag();
    NameWithTag(reference);
    var written := reference + (":" + "latest");
    if |written| <= MAX_REFERENCE {
      TagAppended(reference, "latest");
      AppendedTag(reference, "latest");
      SameComponentsSameRepository(written, reference);
      NameWithTag(written);
    }
  }

  lemma LatestIsTag()
    ensures TagOk("latest")
  {
  }

  /** A plain name belongs to Docker's own library and asks for the tag `latest`. */
  lemma LibraryName(name: string)
    requires Plain([name]) && !HostLike(name) && !HasUpper(name) && |name| <= MAX_REFERENCE
    ensures Repository(name) == Some("docker.io/library/" + name)
    ensures ReferenceName(name).Some? && |ReferenceName(name).value| == |name| + 25
  {
    LibrarySpellings(name, 0);
    assert Join(Spelling(name, 0), '/') == name;
    PlainTextParts([name]);
    LatestIsDefault(name);
  }

  /** A reference within 512 characters whose normal form is longer than that. */
  lemma LongNormalForm() returns (reference: string)
    ensures |reference| <= MAX_REFERENCE && ReferenceName(reference).Some?
    ensures |ReferenceName(reference).value| > MAX_REFERENCE
  {
    reference := seq(500, _ => 'a');
    LibraryName(reference);
  }
}
