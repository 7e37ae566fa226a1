/**
 The image lines of a compose file: finding them, retagging them, and putting the
 captured references back. Lines end in '\n'.
 */
module ComposeText {
  import opened Values

  predicate IsBlank(c: char) {
    c == ' ' || c == '\t' || c == '\r'
  }

  predicate IsAlnum(c: char) {
    'a' <= c <= 'z' || 'A' <= c <= 'Z' || '0' <= c <= '9'
  }

  predicate IsRepoChar(c: char) {
    IsAlnum(c) || c == '.' || c == '_' || c == '-'
  }

  /** What `[^\s@]` accepts inside a line. */
  predicate IsTagChar(c: char) {
    !IsBlank(c) && c != '\n' && c != '@'
  }

  predicate IsHex(c: char) {
    '0' <= c <= '9' || 'a' <= c <= 'f' || 'A' <= c <= 'F'
  }

  predicate All(s: string, f: char -> bool) {
    forall i :: 0 <= i < |s| ==> f(s[i])
  }

  /** How many characters from the start satisfy f. */
  function Run(s: string, f: char -> bool): (n: nat)
    ensures n <= |s| && All(s[..n], f) && (n < |s| ==> !f(s[n]))
  {
    if s != [] && f(s[0]) then 1 + Run(s[1..], f) else 0
  }

  lemma RunIs(head: string, tail: string, f: char -> bool)
    requires All(head, f) && (tail != [] ==> !f(tail[0]))
    ensures Run(head + tail, f) == |head|
    ensures (head + tail)[..|head|] == head && (head + tail)[|head|..] == tail
  {
    var s := head + tail;
    assert forall i :: 0 <= i < |head| ==> s[i] == head[i];
    assert tail != [] ==> s[|head|] == tail[0];
    assert forall i :: 0 <= i < Run(s, f) ==> s[..Run(s, f)][i] == s[i];
  }

  const KEY := "image:"
  const OWNER := "greffon/"
  const DIGEST := "@sha256:"

  // ---- Tags ----------------------------------------------------------------------------

  /** is_valid_image_tag */
  predicate IsValidImageTag(tag: string) {
    && 0 < |tag| <= 128
    && (IsAlnum(tag[0]) || tag[0] == '_')
    && forall i :: 0 <= i < |tag| ==> IsRepoChar(tag[i])
  }

  /** `[A-Za-z0-9_][A-Za-z0-9_.-]{0,127}` */
  lemma TagIff(tag: string)
    ensures IsValidImageTag(tag) <==>
      && 1 <= |tag| <= 128 && tag[0] != '.' && tag[0] != '-'
      && forall i :: 0 <= i < |tag| ==>
           || 'A' <= tag[i] <= 'Z' || 'a' <= tag[i] <= 'z' || '0' <= tag[i] <= '9'
           || tag[i] == '_' || tag[i] == '.' || tag[i] == '-'
  {
  }

  // ---- The pattern, and its parser ---------------------------------------------------------

  /** The groups of a matching line; `suffix` is the tag or digest with its ':' or '@'. */
  datatype ImageLine = ImageLine(indent: string, repo: string, suffix: string, trail: string)

  predicate IsIndent(s: string) {
    var b := Run(s, IsBlank);
    KEY <= s[b..] && All(s[b + |KEY|..], IsBlank)
  }

  predicate IsRepo(s: string) {
    OWNER <= s && |s| > |OWNER| && All(s[|OWNER|..], IsRepoChar)
  }

  predicate IsDigest(s: string) {
    |s| == 72 && DIGEST <= s && All(s[8..], IsHex)
  }

  predicate IsSuffix(s: string) {
    s == "" || (s[0] == ':' && |s| > 1 && All(s[1..], IsTagChar)) || IsDigest(s)
  }

  /** `image:` at b, and blanks around it. */
  predicate KeyAt(s: string, b: nat) {
    && b + 6 <= |s| && s[b..b + 6] == "image:"
    && (forall i :: 0 <= i < b ==> s[i] == ' ' || s[i] == '\t' || s[i] == '\r')
    && (forall i :: b + 6 <= i < |s| ==> s[i] == ' ' || s[i] == '\t' || s[i] == '\r')
  }

  /** `\s*image:\s*` */
  lemma IndentIff(s: string)
    ensures IsIndent(s) <==> exists b: nat :: KeyAt(s, b)
  {
    if IsIndent(s) {
      KeyAfterRun(s);
    }
    if b: nat :| KeyAt(s, b) {
      RunBeforeKey(s, b);
    }
  }

  lemma KeyAfterRun(s: string)
    requires IsIndent(s)
    ensures KeyAt(s, Run(s, IsBlank))
  {
    var b := Run(s, IsBlank);
    assert s[b..b + 6] == s[b..][..6] == "image:";
    assert forall i :: 0 <= i < b ==> s[..b][i] == s[i];
    assert forall i :: b + 6 <= i < |s| ==> s[b + 6..][i - b - 6] == s[i];
  }

  lemma RunBeforeKey(s: string, b: nat)
    requires KeyAt(s, b)
    ensures IsIndent(s)
  {
    assert s[b] == s[b..b + 6][0] == 'i';
    assert s == s[..b] + s[b..];
    RunIs(s[..b], s[b..], IsBlank);
    assert s[b..][..6] == s[b..b + 6];
  }

  /** `greffon/[A-Za-z0-9._-]+` */
  lemma RepoIff(s: string)
    ensures IsRepo(s) <==>
      && |s| > 8 && s[..8] == "greffon/"
      && forall i :: 8 <= i < |s| ==>
           || 'A' <= s[i] <= 'Z' || 'a' <= s[i] <= 'z' || '0' <= s[i] <= '9'
           || s[i] == '.' || s[i] == '_' || s[i] == '-'
  {
    if |s| > 8 {
      assert forall i :: 8 <= i < |s| ==> s[i] == s[8..][i - 8];
      assert "greffon/" <= s <==> s[..8] == "greffon/";
    }
  }

  /** `(?::[^\s@]+|@sha256:[0-9a-fA-F]{64})?` */
  lemma SuffixIff(s: string)
    ensures IsSuffix(s) <==>
      || s == ""
      || (&& |s| > 1 && s[0] == ':'
          && forall i :: 1 <= i < |s| ==>
               s[i] != ' ' && s[i] != '\t' && s[i] != '\r' && s[i] != '\n' && s[i] != '@')
      || (&& |s| == 72 && s[..8] == "@sha256:"
          && forall i :: 8 <= i < 72 ==> '0' <= s[i] <= '9' || 'a' <= s[i] <= 'f' || 'A' <= s[i] <= 'F')
  {
    if s != "" {
      assert forall i :: 1 <= i < |s| ==> s[i] == s[1..][i - 1];
      if |s| == 72 {
        assert forall i :: 8 <= i < 72 ==> s[i] == s[8..][i - 8];
        assert "@sha256:" <= s <==> s[..8] == "@sha256:";
      }
    }
  }

  /** What the regular expression says of a line without its newline. */
  predicate Matches(body: string, p: ImageLine) {
    && body == p.indent + (p.repo + (p.suffix + p.trail))
    && IsIndent(p.indent) && IsRepo(p.repo) && IsSuffix(p.suffix) && All(p.trail, IsBlank)
  }

  function SuffixLength(s: string): (n: nat)
    ensures n <= |s|
  {
    if s != "" && s[0] == ':' && Run(s[1..], IsTagChar) > 0 then 1 + Run(s[1..], IsTagChar)
    else if |s| >= 72 && IsDigest(s[..72]) then 72
    else 0
  }

  /** The length of the `image:` prefix with the blanks around it; 0 when there is none. */
  function IndentLength(s: string): (n: nat)
    ensures n <= |s|
  {
    var b := Run(s, IsBlank);
    if KEY <= s[b..] then b + |KEY| + Run(s[b + |KEY|..], IsBlank) else 0
  }

  /** The length of the repository at the start of s; 0 when there is none. */
  function RepoLength(s: string): (n: nat)
    ensures n <= |s|
  {
    if OWNER <= s && Run(s[|OWNER|..], IsRepoChar) > 0 then |OWNER| + Run(s[|OWNER|..], IsRepoChar) else 0
  }

  /** One left-to-right pass, without going back. */
  function Parse(body: string): Option<ImageLine> {
    var c := IndentLength(body);
    var rest := body[c..];
    var n := RepoLength(rest);
    var k := SuffixLength(rest[n..]);
    if c > 0 && n > 0 && All(rest[n..][k..], IsBlank)
    then Some(ImageLine(body[..c], rest[..n], rest[n..][..k], rest[n..][k..])) else None
  }

  lemma ParseMatches(body: string)
    requires Parse(body).Some?
    ensures Matches(body, Parse(body).value)
  {
    hide IsIndent, IsRepo, IsSuffix, IndentLength, RepoLength, SuffixLength;
    var c := IndentLength(body);
    var rest := body[c..];
    var n := RepoLength(rest);
    var tail := rest[n..];
    var k := SuffixLength(tail);
    IndentFits(body);
    RepoFits(rest);
    SuffixFits(tail);
    Cut(body, c);
    Cut(rest, n);
    Cut(tail, k);
  }

  lemma Cut(s: string, i: nat)
    requires i <= |s|
    ensures s == s[..i] + s[i..]
  {
  }

  lemma IndentFits(s: string)
    requires IndentLength(s) > 0
    ensures IsIndent(s[..IndentLength(s)])
  {
    var b, n := Run(s, IsBlank), IndentLength(s);
    var t := s[..n];
    RunIs(t[..b], t[b..], IsBlank);
    assert t == t[..b] + t[b..] && t[..b] == s[..b];
    assert t[b..][..|KEY|] == s[b..][..|KEY|];
    assert t[b + |KEY|..] == s[b + |KEY|..][..n - b - |KEY|];
  }

  lemma RepoFits(s: string)
    requires RepoLength(s) > 0
    ensures IsRepo(s[..RepoLength(s)])
  {
    var n := RepoLength(s);
    assert s[..n][..|OWNER|] == s[..|OWNER|];
    assert s[..n][|OWNER|..] == s[|OWNER|..][..n - |OWNER|];
  }

  lemma SuffixFits(s: string)
    ensures IsSuffix(s[..SuffixLength(s)])
  {
    if s != "" && s[0] == ':' && Run(s[1..], IsTagChar) > 0 {
      assert s[..SuffixLength(s)][1..] == s[1..][..Run(s[1..], IsTagChar)];
    }
  }

  lemma SuffixIs(suffix: string, trail: string)
    requires IsSuffix(suffix) && All(trail, IsBlank)
    ensures SuffixLength(suffix + trail) == |suffix|
  {
    var s := suffix + trail;
    if suffix == "" {
      assert s == trail;
      assert |s| >= 72 ==> s[..72][0] == s[0];
    } else if suffix[0] == ':' {
      RunIs(suffix[1..], trail, IsTagChar);
      assert s[1..] == suffix[1..] + trail;
    } else {
      assert s[..72] == suffix;
      assert s[0] == suffix[0] == '@';
    }
  }

  lemma MatchesParse(body: string, p: ImageLine)
    requires Matches(body, p)
    ensures Parse(body) == Some(p)
  {
    hide IsIndent, IsRepo, IsSuffix, IndentLength, RepoLength, SuffixLength;
    var tail := p.suffix + p.trail;
    var rest := p.repo + tail;
    RepoStarts(p.repo, tail);
    IndentIs(p.indent, rest);
    assert body[|p.indent|..] == rest && body[..|p.indent|] == p.indent;
    SuffixStarts(p.suffix, p.trail);
    RepoIs(p.repo, tail);
    assert rest[|p.repo|..] == tail && rest[..|p.repo|] == p.repo;
    SuffixIs(p.suffix, p.trail);
    assert tail[|p.suffix|..] == p.trail && tail[..|p.suffix|] == p.suffix;
  }

  lemma RepoStarts(repo: string, tail: string)
    requires IsRepo(repo)
    ensures |repo| > 0 && (repo + tail)[0] == 'g'
  {
    assert repo[0] == OWNER[0];
  }

  lemma SuffixStarts(suffix: string, trail: string)
    requires IsSuffix(suffix) && All(trail, IsBlank)
    ensures var tail := suffix + trail; tail != "" ==> !IsRepoChar(tail[0])
  {
    if IsDigest(suffix) {
      assert suffix[0] == DIGEST[0];
    }
  }

  lemma IndentIs(indent: string, rest: string)
    requires IsIndent(indent) && rest != "" && !IsBlank(rest[0])
    ensures IndentLength(indent + rest) == |indent| > 0
  {
    var b := Run(indent, IsBlank);
    Cut(indent, b);
    Assoc(indent[..b], indent[b..], rest);
    RunIs(indent[..b], indent[b..] + rest, IsBlank);
    RunIs(indent[b + |KEY|..], rest, IsBlank);
    assert (indent + rest)[b + |KEY|..] == indent[b + |KEY|..] + rest;
    assert (indent + rest)[b..] == indent[b..] + rest;
  }

  lemma RepoIs(repo: string, tail: string)
    requires IsRepo(repo) && (tail != "" ==> !IsRepoChar(tail[0]))
    ensures RepoLength(repo + tail) == |repo| > 0
  {
    RunIs(repo[|OWNER|..], tail, IsRepoChar);
    assert (repo + tail)[|OWNER|..] == repo[|OWNER|..] + tail;
    assert (repo + tail)[..|OWNER|] == repo[..|OWNER|];
  }

  /** The pattern is unambiguous: a line matches in at most one way, and the one pass finds it. */
  lemma ParseIff(body: string, p: ImageLine)
    ensures Parse(body) == Some(p) <==> Matches(body, p)
  {
    if Parse(body) == Some(p) {
      ParseMatches(body);
    }
    if Matches(body, p) {
      MatchesParse(body, p);
    }
  }

  // ---- Lines -------------------------------------------------------------------------------

  /** str.splitlines(keepends=True) */
  function Lines(text: string): seq<string> {
    if text == "" then []
    else
      var rest := Lines(text[1..]);
      if text[0] == '\n' then ["\n"] + rest
      else if rest == [] then [[text[0]]]
      else [[text[0]] + rest[0]] + rest[1..]
  }

  function Concat(lines: seq<string>): string {
    if lines == [] then "" else lines[0] + Concat(lines[1..])
  }

  /** A line as splitlines leaves it. */
  predicate IsLine(line: string) {
    line != "" && forall i :: 0 <= i < |line| - 1 ==> line[i] != '\n'
  }

  predicate Ended(line: string) {
    line != "" && line[|line| - 1] == '\n'
  }

  /** Lines of one text: only the last may lack its newline. */
  predicate AreLines(lines: seq<string>) {
    (forall i :: 0 <= i < |lines| ==> IsLine(lines[i])) && (forall i :: 0 <= i < |lines| - 1 ==> Ended(lines[i]))
  }

  lemma {:induction false} LinesRoundTrip(text: string)
    ensures AreLines(Lines(text)) && Concat(Lines(text)) == text
  {
    if text != "" {
      LinesRoundTrip(text[1..]);
      var rest, lines := Lines(text[1..]), Lines(text);
      Cut(text, 1);
      assert text[..1] == [text[0]];
      if text[0] == '\n' {
        assert lines[0] == "\n" && lines[1..] == rest;
      } else if rest == [] {
        assert lines[0] == [text[0]] && lines[1..] == [];
      } else {
        assert lines[0] == [text[0]] + rest[0] && lines[1..] == rest[1..];
        Assoc([text[0]], rest[0], Concat(rest[1..]));
      }
    }
  }

  lemma {:induction false} LineThen(line: string, rest: string)
    requires IsLine(line) && (Ended(line) || rest == "")
    ensures Lines(line + rest) == [line] + Lines(rest)
  {
    var text := line + rest;
    if |line| == 1 {
      assert text[1..] == rest && line == [line[0]];
    } else {
      LineThen(line[1..], rest);
      assert text[1..] == line[1..] + rest;
      assert line == [line[0]] + line[1..];
    }
  }

  lemma {:induction false} ConcatRoundTrip(lines: seq<string>)
    requires AreLines(lines)
    ensures Lines(Concat(lines)) == lines
  {
    if lines != [] {
      ConcatRoundTrip(lines[1..]);
      LineThen(lines[0], Concat(lines[1..]));
    }
  }

  // ---- Rewriting ---------------------------------------------------------------------------

  /** The two `resolve` functions: every repository to one tag, or each to its own reference. */
  datatype Resolver = Retag(target: string) | Refs(refs: map<string, string>)

  function Resolve(r: Resolver, repo: string): Option<string> {
    match r
    case Retag(target) => Some(repo + ":" + target)
    case Refs(refs) => if repo in refs then Some(refs[repo]) else None
  }

  function Body(line: string): string {
    if Ended(line) then line[..|line| - 1] else line
  }

  function Newline(line: string): string {
    if Ended(line) then "\n" else ""
  }

  function Rewrite(line: string, r: Resolver): string {
    var p := Parse(Body(line));
    if p.None? then line
    else
      var ref := Resolve(r, p.value.repo);
      if ref.None? then line else p.value.indent + ref.value + Newline(line)
  }

  function RewriteAll(lines: seq<string>, r: Resolver): (out: seq<string>)
    ensures |out| == |lines| && forall i :: 0 <= i < |lines| ==> out[i] == Rewrite(lines[i], r)
  {
    if lines == [] then [] else [Rewrite(lines[0], r)] + RewriteAll(lines[1..], r)
  }

  /** repository -> the reference on its last image line. */
  function Captured(lines: seq<string>): map<string, string> {
    if lines == [] then map[]
    else
      var before := Captured(lines[..|lines| - 1]);
      var p := Parse(Body(lines[|lines| - 1]));
      if p.None? then before else before[p.value.repo := p.value.repo + p.value.suffix]
  }

  predicate IsSpace(c: char) {
    IsBlank(c) || c == '\n'
  }

  function StripRight(s: string): string {
    if s != "" && IsSpace(s[|s| - 1]) then StripRight(s[..|s| - 1]) else s
  }

  /** str.strip() */
  function Strip(s: string): string {
    StripRight(s[Run(s, IsSpace)..])
  }

  lemma {:induction false} StripRightIs(mid: string, right: string)
    requires All(right, IsSpace) && (mid != "" ==> !IsSpace(mid[|mid| - 1]))
    ensures StripRight(mid + right) == mid
  {
    if right == "" {
      assert mid + right == mid;
    } else {
      StripRightIs(mid, right[..|right| - 1]);
      assert (mid + right)[..|mid + right| - 1] == mid + right[..|right| - 1];
    }
  }

  lemma StripIs(left: string, mid: string, right: string)
    requires All(left, IsSpace) && All(right, IsSpace) && mid != "" && !IsSpace(mid[0]) && !IsSpace(mid[|mid| - 1])
    ensures Strip(left + (mid + right)) == mid
  {
    RunIs(left, mid + right, IsSpace);
    StripRightIs(mid, right);
  }

  /** A reference ends in a character that is no space, and holds no newline. */
  lemma RefIsTight(repo: string, suffix: string)
    requires IsRepo(repo) && IsSuffix(suffix)
    ensures var ref := repo + suffix; ref != "" && ref[0] == 'g' && !IsSpace(ref[|ref| - 1]) && '\n' !in ref
  {
    RepoStarts(repo, suffix);
    var ref := repo + suffix;
    assert repo == repo[..|OWNER|] + repo[|OWNER|..];
    if suffix == "" {
      assert ref[|ref| - 1] == repo[|OWNER|..][|repo| - |OWNER| - 1];
    } else if suffix[0] == ':' {
      assert suffix == [suffix[0]] + suffix[1..];
      assert ref[|ref| - 1] == suffix[1..][|suffix| - 2];
    } else {
      assert suffix == suffix[..8] + suffix[8..];
      assert ref[|ref| - 1] == suffix[8..][63];
    }
  }

  lemma Assoc(a: string, b: string, c: string)
    ensures (a + b) + c == a + (b + c)
  {
  }

  lemma IndentParts(indent: string)
    requires IsIndent(indent)
    ensures var b := Run(indent, IsBlank);
      b + |KEY| <= |indent| && indent == indent[..b] + (KEY + indent[b + |KEY|..])
      && All(indent[..b], IsSpace) && All(indent[b + |KEY|..], IsSpace)
  {
    hide All, Run;
    var b := Run(indent, IsBlank);
    var rest := indent[b..];
    Cut(indent, b);
    KeyThen(rest);
    DropDrop(indent, b, |KEY|);
    BlankIsSpace(indent[..b]);
    BlankIsSpace(indent[b + |KEY|..]);
  }

  lemma KeyThen(s: string)
    requires KEY <= s
    ensures s == KEY + s[|KEY|..]
  {
    Cut(s, |KEY|);
  }

  lemma DropDrop(s: string, i: nat, j: nat)
    requires i + j <= |s|
    ensures s[i..][j..] == s[i + j..]
  {
  }

  lemma BlankIsSpace(s: string)
    requires All(s, IsBlank)
    ensures All(s, IsSpace)
  {
  }

  /** The parts of an image line, from the key on. */
  lemma LineParts(left: string, gap: string, repo: string, suffix: string, trail: string, nl: string)
    ensures ((left + (KEY + gap)) + (repo + (suffix + trail))) + nl
      == left + ((KEY + (gap + (repo + suffix))) + (trail + nl))
  {
    var ref, right := repo + suffix, trail + nl;
    Assoc(left, KEY + gap, repo + (suffix + trail));
    Assoc(left, (KEY + gap) + (repo + (suffix + trail)), nl);
    Assoc(KEY + gap, repo + (suffix + trail), nl);
    Assoc(repo, suffix + trail, nl);
    Assoc(suffix, trail, nl);
    Assoc(repo, suffix, right);
    Assoc(KEY, gap, ref + right);
    Assoc(gap, ref, right);
    Assoc(KEY, gap + ref, right);
  }

  /** What the code cuts out of the line is the reference. */
  lemma StrippedIsRef(line: string, p: ImageLine)
    requires Parse(Body(line)) == Some(p)
    ensures |Strip(line)| >= |KEY| && Strip(Strip(line)[|KEY|..]) == p.repo + p.suffix
  {
    hide IsRepo, IsSuffix, IsIndent, Parse, Strip, Run;
    ParseMatches(Body(line));
    BodyAndNewline(line);
    RefIsTight(p.repo, p.suffix);
    IndentParts(p.indent);
    var ref := p.repo + p.suffix;
    var b := Run(p.indent, IsBlank);
    var left, gap, right := p.indent[..b], p.indent[b + |KEY|..], p.trail + Newline(line);
    var mid := KEY + (gap + ref);
    LineParts(left, gap, p.repo, p.suffix, p.trail, Newline(line));
    StripIs(left, mid, right);
    assert mid[|KEY|..] == gap + ref;
    StripIs(gap, ref, "");
    assert gap + (ref + "") == gap + ref;
  }

  lemma BodyAndNewline(line: string)
    ensures line == Body(line) + Newline(line)
  {
  }

  /** _rewrite_image_lines */
  method RewriteImageLines(text: string, r: Resolver) returns (newText: string, oldRefs: map<string, string>)
    ensures newText == Concat(RewriteAll(Lines(text), r)) && oldRefs == Captured(Lines(text))
  {
    hide Parse, Rewrite, Strip, Lines;
    var lines := Lines(text);
    var out: seq<string> := [];
    oldRefs := map[];
    for i := 0 to |lines|
      invariant |out| == i && forall j :: 0 <= j < i ==> out[j] == Rewrite(lines[j], r)
      invariant oldRefs == Captured(lines[..i])
    {
      var line := lines[i];
      RewriteUnfolds(line, r);
      assert lines[..i + 1][..i] == lines[..i];
      var m := Parse(Body(line));
      if m.None? {
        out := out + [line];
      } else {
        StrippedIsRef(line, m.value);
        oldRefs := oldRefs[m.value.repo := Strip(Strip(line)[|KEY|..])];
        var ref := Resolve(r, m.value.repo);
        out := out + [if ref.None? then line else m.value.indent + ref.value + Newline(line)];
      }
    }
    assert lines[..|lines|] == lines && out == RewriteAll(lines, r);
    newText := Concat(out);
  }

  lemma RewriteUnfolds(line: string, r: Resolver)
    ensures Rewrite(line, r) ==
      var p := Parse(Body(line));
      if p.None? || Resolve(r, p.value.repo).None? then line
      else p.value.indent + Resolve(r, p.value.repo).value + Newline(line)
  {
  }

  // ---- Retag, then restore -------------------------------------------------------------------

  /** Each repository's reference is its own. */
  predicate OwnRefs(refs: map<string, string>) {
    forall repo :: repo in refs ==> repo <= refs[repo] && IsSuffix(refs[repo][|repo|..])
  }

  lemma {:induction false} CapturedAreOwn(lines: seq<string>)
    ensures OwnRefs(Captured(lines))
    ensures forall line :: line in lines && Parse(Body(line)).Some? ==> Parse(Body(line)).value.repo in Captured(lines)
  {
    hide Parse, IsSuffix, Matches;
    if lines != [] {
      var line, before := lines[|lines| - 1], lines[..|lines| - 1];
      CapturedAreOwn(before);
      assert lines == before + [line];
      if Parse(Body(line)).Some? {
        var p := Parse(Body(line)).value;
        SuffixOf(Body(line), p);
        assert (p.repo + p.suffix)[|p.repo|..] == p.suffix;
      }
    }
  }

  lemma SuffixOf(body: string, p: ImageLine)
    requires Parse(body) == Some(p)
    ensures IsSuffix(p.suffix) && IsRepo(p.repo) && IsIndent(p.indent)
  {
    hide IsSuffix, IsRepo, IsIndent, Parse;
    ParseMatches(body);
  }

  /** A rewritten image line is an image line again: same indent, same repository, the new suffix, no trailing
      blanks. */
  lemma RewrittenIsImageLine(line: string, r: Resolver, p: ImageLine, suffix: string)
    requires IsLine(line) && Parse(Body(line)) == Some(p) && IsSuffix(suffix)
    requires Resolve(r, p.repo) == Some(p.repo + suffix)
    ensures var line' := Rewrite(line, r);
      && IsLine(line') && Newline(line') == Newline(line) && Ended(line') == Ended(line)
      && Body(line') == p.indent + (p.repo + suffix)
      && Parse(Body(line')) == Some(ImageLine(p.indent, p.repo, suffix, ""))
  {
    hide Parse, IsSuffix, IsRepo, IsIndent;
    ParseMatches(Body(line));
    SuffixOf(Body(line), p);
    RefIsTight(p.repo, suffix);
    RewriteUnfolds(line, r);
    var ref := p.repo + suffix;
    var body' := p.indent + ref;
    assert Rewrite(line, r) == body' + Newline(line);
    forall i | 0 <= i < |body'| ensures body'[i] != '\n' {
      if i < |p.indent| {
        assert body'[i] == Body(line)[i] == line[i];
      } else {
        assert body'[i] == ref[i - |p.indent|] && ref[i - |p.indent|] in ref;
      }
    }
    assert body'[|body'| - 1] == ref[|ref| - 1];
    assert Body(body' + Newline(line)) == body';
    assert body' == p.indent + (p.repo + (suffix + ""));
    MatchesParse(body', ImageLine(p.indent, p.repo, suffix, ""));
  }

  lemma TagIsSuffix(target: string)
    requires IsValidImageTag(target)
    ensures IsSuffix(":" + target)
  {
    assert (":" + target)[1..] == target;
  }

  /** The prior reference is back on the line. */
  lemma RestoredLine(line: string, target: string, refs: map<string, string>)
    requires IsLine(line) && IsValidImageTag(target) && OwnRefs(refs)
    requires Parse(Body(line)).Some? ==> Parse(Body(line)).value.repo in refs
    ensures var p := Parse(Body(line)); var back := Rewrite(Rewrite(line, Retag(target)), Refs(refs));
      back == if p.None? then line else p.value.indent + refs[p.value.repo] + Newline(line)
  {
    hide Parse, IsSuffix, Rewrite;
    RewriteUnfolds(line, Retag(target));
    RewriteUnfolds(line, Refs(refs));
    if Parse(Body(line)).Some? {
      var p := Parse(Body(line)).value;
      TagIsSuffix(target);
      assert p.repo + (":" + target) == p.repo + ":" + target;
      RewrittenIsImageLine(line, Retag(target), p, ":" + target);
      RewriteUnfolds(Rewrite(line, Retag(target)), Refs(refs));
    }
  }

  /** The line carries the captured reference, and nothing after it. */
  predicate Tidy(line: string, refs: map<string, string>) {
    var p := Parse(Body(line));
    p.Some? ==> p.value.trail == "" && p.value.repo in refs && refs[p.value.repo] == p.value.repo + p.value.suffix
  }

  lemma RestoredLineIff(line: string, target: string, refs: map<string, string>)
    requires IsLine(line) && IsValidImageTag(target) && OwnRefs(refs)
    requires Parse(Body(line)).Some? ==> Parse(Body(line)).value.repo in refs
    ensures Rewrite(Rewrite(line, Retag(target)), Refs(refs)) == line <==> Tidy(line, refs)
  {
    hide Parse, IsSuffix, Rewrite, IsRepo, IsIndent;
    RestoredLine(line, target, refs);
    if Parse(Body(line)).Some? {
      var p := Parse(Body(line)).value;
      ParseMatches(Body(line));
      BodyAndNewline(line);
      SuffixOf(Body(line), p);
      var ref, was := refs[p.repo], p.repo + (p.suffix + p.trail);
      RefEndsTight(p.repo, ref);
      var nl := Newline(line);
      assert line == p.indent + was + nl;
      SameMiddle(p.indent, ref, was, nl);
      if p.trail != "" {
        assert was[|was| - 1] == p.trail[|p.trail| - 1];
      } else {
        assert was == p.repo + p.suffix;
      }
    }
  }

  lemma RefEndsTight(repo: string, ref: string)
    requires IsRepo(repo) && repo <= ref && IsSuffix(ref[|repo|..])
    ensures ref != "" && !IsSpace(ref[|ref| - 1])
  {
    RefIsTight(repo, ref[|repo|..]);
    assert repo + ref[|repo|..] == ref;
  }

  lemma SameMiddle(left: string, a: string, b: string, right: string)
    ensures left + a + right == left + b + right <==> a == b
  {
    if left + a + right == left + b + right {
      assert a == (left + a + right)[|left|..][..|a|];
      assert |left + a + right| == |left + b + right|;
      assert b == (left + b + right)[|left|..][..|b|];
    }
  }

  /** What a retag makes of one line: nothing of any other line, and exactly the target on an image line. */
  predicate Retagged(line: string, line': string, target: string) {
    var p := Parse(Body(line));
    if p.None? then line' == line
    else Parse(Body(line')) == Some(p.value.(suffix := ":" + target, trail := "")) && Newline(line') == Newline(line)
  }

  /** Still a line, and ended if it was. */
  predicate KeepsLine(line: string, line': string) {
    IsLine(line') && (Ended(line) ==> Ended(line'))
  }

  lemma RetagLine(line: string, target: string)
    requires IsLine(line) && IsValidImageTag(target)
    ensures var line' := Rewrite(line, Retag(target)); KeepsLine(line, line') && Retagged(line, line', target)
  {
    hide Parse, IsSuffix, Rewrite, Body;
    RewriteUnfolds(line, Retag(target));
    if Parse(Body(line)).Some? {
      var p := Parse(Body(line)).value;
      TagIsSuffix(target);
      assert p.repo + (":" + target) == p.repo + ":" + target;
      RewrittenIsImageLine(line, Retag(target), p, ":" + target);
    }
  }

  lemma RestoreLine(line: string, refs: map<string, string>)
    requires IsLine(line) && OwnRefs(refs)
    ensures KeepsLine(line, Rewrite(line, Refs(refs)))
  {
    hide Parse, IsSuffix, Rewrite, Body;
    RewriteUnfolds(line, Refs(refs));
    if Parse(Body(line)).Some? {
      var p := Parse(Body(line)).value;
      if p.repo in refs {
        assert refs[p.repo] == p.repo + refs[p.repo][|p.repo|..];
        RewrittenIsImageLine(line, Refs(refs), p, refs[p.repo][|p.repo|..]);
      }
    }
  }

  lemma LineByLine(lines: seq<string>, lines': seq<string>)
    requires AreLines(lines) && |lines'| == |lines|
    requires forall i :: 0 <= i < |lines| ==> KeepsLine(lines[i], lines'[i])
    ensures AreLines(lines')
  {
    hide IsLine, Ended;
    assert forall i :: 0 <= i < |lines| ==> KeepsLine(lines[i], lines'[i]);
  }

  /** Texts are equal when their lines are. */
  lemma SameText(a: seq<string>, b: seq<string>)
    requires AreLines(a) && AreLines(b)
    ensures Concat(a) == Concat(b) <==> a == b
  {
    hide AreLines, Concat, Lines;
    ConcatRoundTrip(a);
    ConcatRoundTrip(b);
  }

  function Rewritten(text: string, r: Resolver): string {
    Concat(RewriteAll(Lines(text), r))
  }

  lemma RetagAll(lines: seq<string>, target: string)
    requires AreLines(lines) && IsValidImageTag(target)
    ensures AreLines(RewriteAll(lines, Retag(target)))
    ensures forall i :: 0 <= i < |lines| ==> Retagged(lines[i], RewriteAll(lines, Retag(target))[i], target)
  {
    hide Retagged, Rewrite, KeepsLine, IsLine, Ended;
    var lines' := RewriteAll(lines, Retag(target));
    forall i | 0 <= i < |lines| ensures KeepsLine(lines[i], lines'[i]) && Retagged(lines[i], lines'[i], target) {
      RetagLine(lines[i], target);
    }
    LineByLine(lines, lines');
  }

  lemma RestoreAll(lines: seq<string>, refs: map<string, string>)
    requires AreLines(lines) && OwnRefs(refs)
    ensures AreLines(RewriteAll(lines, Refs(refs)))
  {
    hide Rewrite, KeepsLine, IsLine, Ended, OwnRefs;
    var lines' := RewriteAll(lines, Refs(refs));
    forall i | 0 <= i < |lines| ensures KeepsLine(lines[i], lines'[i]) {
      RestoreLine(lines[i], refs);
    }
    LineByLine(lines, lines');
  }

  /** Retagging a text retags its lines, one by one. */
  lemma RetaggedLines(text: string, target: string)
    requires IsValidImageTag(target)
    ensures var lines, lines' := Lines(text), Lines(Rewritten(text, Retag(target)));
      |lines'| == |lines| && forall i :: 0 <= i < |lines| ==> Retagged(lines[i], lines'[i], target)
  {
    hide Retagged, Rewrite, Lines, Concat, AreLines;
    LinesRoundTrip(text);
    RetagAll(Lines(text), target);
    ConcatRoundTrip(RewriteAll(Lines(text), Retag(target)));
  }

  /** Restoring what a retag captured gives the text back exactly when every image line ends in its reference
      and every repository has the one reference of its last line. */
  lemma RetagThenRestoreIff(text: string, target: string)
    requires IsValidImageTag(target)
    ensures var lines := Lines(text); var refs := Captured(lines);
      var restored := Rewritten(Rewritten(text, Retag(target)), Refs(refs));
      restored == text <==> (forall i :: 0 <= i < |lines| ==> Tidy(lines[i], refs))
  {
    hide Retagged, Rewrite, Lines, Concat, Tidy, OwnRefs, IsLine, Ended;
    var lines := Lines(text);
    var refs := Captured(lines);
    LinesRoundTrip(text);
    CapturedAreOwn(lines);
    RetagAll(lines, target);
    var retagged := RewriteAll(lines, Retag(target));
    ConcatRoundTrip(retagged);
    RestoreAll(retagged, refs);
    var back := RewriteAll(retagged, Refs(refs));
    SameText(back, lines);
    forall i | 0 <= i < |lines| ensures back[i] == lines[i] <==> Tidy(lines[i], refs) {
      assert lines[i] in lines;
      RestoredLineIff(lines[i], target, refs);
    }
  }

  /** Whatever the text, the restored file carries on each image line the reference captured for its
      repository, and is the old text everywhere else. */
  lemma RestoredText(text: string, target: string)
    requires IsValidImageTag(target)
    ensures var lines := Lines(text); var refs := Captured(lines);
      var lines' := Lines(Rewritten(Rewritten(text, Retag(target)), Refs(refs)));
      && |lines'| == |lines|
      && forall i :: 0 <= i < |lines| ==>
           var p := Parse(Body(lines[i]));
           lines'[i] == if p.None? then lines[i] else p.value.indent + GetOr(refs, p.value.repo, "") + Newline(lines[i])
  {
    hide Retagged, Rewrite, Lines, Concat, OwnRefs, IsLine, Ended, Parse, Body, Newline;
    var lines := Lines(text);
    var refs := Captured(lines);
    LinesRoundTrip(text);
    CapturedAreOwn(lines);
    RetagAll(lines, target);
    var retagged := RewriteAll(lines, Retag(target));
    ConcatRoundTrip(retagged);
    RestoreAll(retagged, refs);
    var back := RewriteAll(retagged, Refs(refs));
    ConcatRoundTrip(back);
    forall i | 0 <= i < |lines|
      ensures var p := Parse(Body(lines[i]));
        back[i] == if p.None? then lines[i] else p.value.indent + GetOr(refs, p.value.repo, "") + Newline(lines[i])
    {
      assert lines[i] in lines;
      RestoredLine(lines[i], target, refs);
    }
  }

  /** Restoring again changes nothing. */
  lemma RestoreTwice(text: string, refs: map<string, string>)
    requires OwnRefs(refs)
    ensures Rewritten(Rewritten(text, Refs(refs)), Refs(refs)) == Rewritten(text, Refs(refs))
  {
    hide Rewrite, Lines, Concat, OwnRefs, IsLine, Ended;
    var lines := Lines(text);
    LinesRoundTrip(text);
    RestoreAll(lines, refs);
    var once := RewriteAll(lines, Refs(refs));
    ConcatRoundTrip(once);
    forall i | 0 <= i < |lines| ensures Rewrite(once[i], Refs(refs)) == once[i] {
      RestoreLineTwice(lines[i], refs);
    }
    assert RewriteAll(once, Refs(refs)) == once;
  }

  lemma RestoreLineTwice(line: string, refs: map<string, string>)
    requires IsLine(line) && OwnRefs(refs)
    ensures Rewrite(Rewrite(line, Refs(refs)), Refs(refs)) == Rewrite(line, Refs(refs))
  {
    hide Parse, IsSuffix, Rewrite, Body;
    RewriteUnfolds(line, Refs(refs));
    if Parse(Body(line)).Some? && Parse(Body(line)).value.repo in refs {
      var p := Parse(Body(line)).value;
      assert refs[p.repo] == p.repo + refs[p.repo][|p.repo|..];
      RewrittenIsImageLine(line, Refs(refs), p, refs[p.repo][|p.repo|..]);
      RewriteUnfolds(Rewrite(line, Refs(refs)), Refs(refs));
    }
  }

  /** The same, as a reader would check it: no trailing blanks, and two image lines of one repository agree. */
  lemma TidyIff(lines: seq<string>)
    ensures (forall i :: 0 <= i < |lines| ==> Tidy(lines[i], Captured(lines))) <==>
      (forall i, j :: 0 <= i < |lines| && 0 <= j < |lines|
                      && Parse(Body(lines[i])).Some? && Parse(Body(lines[j])).Some? ==>
        var p, q := Parse(Body(lines[i])).value, Parse(Body(lines[j])).value;
        p.trail == "" && (p.repo == q.repo ==> p.suffix == q.suffix))
  {
    hide Parse, Body;
    CapturedFrom(lines);
    forall p: ImageLine, q: ImageLine | p.repo == q.repo
      ensures p.repo + p.suffix == q.repo + q.suffix <==> p.suffix == q.suffix
    {
      assert (p.repo + p.suffix)[|p.repo|..] == p.suffix && (q.repo + q.suffix)[|q.repo|..] == q.suffix;
    }
  }

  /** Every captured reference stands on some line. */
  lemma {:induction false} CapturedFrom(lines: seq<string>)
    ensures forall repo :: repo in Captured(lines) ==>
      exists i :: 0 <= i < |lines| && Parse(Body(lines[i])).Some? && Parse(Body(lines[i])).value.repo == repo
        && Captured(lines)[repo] == repo + Parse(Body(lines[i])).value.suffix
    ensures forall i :: 0 <= i < |lines| && Parse(Body(lines[i])).Some? ==>
      Parse(Body(lines[i])).value.repo in Captured(lines)
  {
    hide Parse, Body;
    if lines != [] {
      var before := lines[..|lines| - 1];
      CapturedFrom(before);
      forall i | 0 <= i < |before| ensures before[i] == lines[i] {
      }
    }
  }

  // ---- The file ------------------------------------------------------------------------------

  class ComposeFile {
    var text: string

    /** _atomic_write: the text is replaced in one step, or the write raises and it is not. */
    method AtomicWrite(newText: string, lands: bool)
      modifies this
      ensures text == if lands then newText else old(text)
    {
      if lands {
        text := newText;
      }
    }

    /** set_image_tag; an invalid tag is refused before the file is read, and None is that or a raised write. */
    method SetImageTag(target: string, lands: bool) returns (r: Option<map<string, string>>)
      modifies this
      ensures r.Some? <==> IsValidImageTag(target) && lands
      ensures if r.Some? then text == Rewritten(old(text), Retag(target)) && r.value == Captured(Lines(old(text)))
        else text == old(text)
    {
      if !IsValidImageTag(target) {
        return None;
      }
      var newText, oldRefs := RewriteImageLines(text, Retag(target));
      AtomicWrite(newText, lands);
      return if lands then Some(oldRefs) else None;
    }

    /** set_image_refs */
    method SetImageRefs(refs: map<string, string>, lands: bool)
      modifies this
      ensures text == if lands then Rewritten(old(text), Refs(refs)) else old(text)
    {
      var newText, _ := RewriteImageLines(text, Refs(refs));
      AtomicWrite(newText, lands);
    }
  }
}
