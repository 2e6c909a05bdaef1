/**
 The names a request may carry (internal/linkcore/app.go, xctest.go): bundle identifiers, test selectors, test
 bundles, attachment names and the output directory.
 */
module Names {
  import opened Common

  predicate IsLetter(c: char) {
    'a' <= c <= 'z' || 'A' <= c <= 'Z'
  }

  predicate IsDigit(c: char) {
    '0' <= c <= '9'
  }

  predicate IsWord(s: string) {
    forall i :: 0 <= i < |s| ==> IsLetter(s[i]) || IsDigit(s[i]) || s[i] == '_'
  }

  predicate IsIdentifier(s: string) {
    s != "" && !IsDigit(s[0]) && IsWord(s)
  }

  /** Class/testMethod. */
  predicate IsSelector(s: string) {
    exists k :: 0 <= k < |s| && s[k] == '/' && IsIdentifier(s[..k]) && IsTestMethod(s[k + 1..])
  }

  predicate IsTestMethod(s: string) {
    |s| > 4 && s[..4] == "test" && IsWord(s)
  }

  predicate IsBundleName(s: string) {
    |s| > 7 && s[|s| - 7..] == ".xctest" && IsIdentifier(s[..|s| - 7])
  }

  predicate IsAttachmentName(s: string) {
    s != "" && |s| <= 256 && '\0' !in s && '\r' !in s && '\n' !in s
  }

  /** strings.Split by one character. */
  function Split(s: string, sep: char): (r: seq<string>)
    ensures r != []
  {
    if s == "" then [""]
    else
      var front, last := Split(s[..|s| - 1], sep), s[|s| - 1];
      if last == sep then front + [""] else front[|front| - 1 := front[|front| - 1] + [last]]
  }

  predicate IsComponent(c: string) {
    && c != "" && c[0] != '-' && c[|c| - 1] != '-'
    && forall i :: 0 <= i < |c| ==> IsLetter(c[i]) || IsDigit(c[i]) || c[i] == '-'
  }

  predicate IsBundleIdentifier(s: string) {
    && 3 <= |s| <= 255
    && |Split(s, '.')| >= 2
    && forall i :: 0 <= i < |Split(s, '.')| ==> IsComponent(Split(s, '.')[i])
  }

  /** How far below the root a rooted path leads, element by element. */
  function Depth(elements: seq<string>): nat {
    if elements == [] then 0
    else
      var above, last := Depth(elements[..|elements| - 1]), elements[|elements| - 1];
      if last == "" || last == "." then above
      else if last == ".." then if above == 0 then 0 else above - 1
      else above + 1
  }

  predicate CleansToRoot(path: string) {
    Depth(Split(path, '/')) == 0
  }

  // ----- What the names look like

  /** A to Z, a to z, 0 to 9 and the underscore, by their ASCII numbers. */
  predicate IsWordChar(c: char) {
    65 <= c as int <= 90 || 97 <= c as int <= 122 || 48 <= c as int <= 57 || c as int == 95
  }

  /** A selector is an identifier, a slash and a method that begins with test and goes on. */
  lemma SelectorsLookLike(s: string)
    ensures IsSelector(s) <==> exists c, m :: IsSelectorOf(s, c, m)
  {
    if IsSelector(s) {
      var k :| 0 <= k < |s| && s[k] == '/' && IsIdentifier(s[..k]) && IsTestMethod(s[k + 1..]);
      SelectorApart(s, k);
    }
    if c, m :| IsSelectorOf(s, c, m) { SelectorTogether(s, c, m); }
  }

  lemma SelectorApart(s: string, k: nat)
    requires k < |s| && s[k] == '/' && IsIdentifier(s[..k]) && IsTestMethod(s[k + 1..])
    ensures IsSelectorOf(s, s[..k], s[k + 1..][4..])
  {
    var c, whole, m := s[..k], s[k + 1..], s[k + 1..][4..];
    assert whole == "test" + m;
    assert s == c + "/" + whole;
    assert c + "/" + ("test" + m) == c + "/test" + m;
    assert forall i :: 0 <= i < |m| ==> m[i] == whole[4 + i];
  }

  lemma SelectorTogether(s: string, c: string, m: string)
    requires IsSelectorOf(s, c, m)
    ensures IsSelector(s)
  {
    var k, whole := |c|, "test" + m;
    assert s[k] == '/' && s[..k] == c && s[k + 1..] == whole;
    assert whole[..4] == "test";
    assert IsWord("test");
    assert forall i :: 4 <= i < |whole| ==> whole[i] == m[i - 4];
  }

  predicate IsSelectorOf(s: string, c: string, m: string) {
    && s == c + "/test" + m
    && c != "" && m != ""
    && !(48 <= c[0] as int <= 57)
    && (forall i :: 0 <= i < |c| ==> IsWordChar(c[i]))
    && forall i :: 0 <= i < |m| ==> IsWordChar(m[i])
  }

  /** A test bundle is an identifier and its extension. */
  lemma BundleNamesLookLike(s: string)
    ensures IsBundleName(s) <==>
            exists n :: s == n + ".xctest" && n != "" && !(48 <= n[0] as int <= 57)
                        && forall i :: 0 <= i < |n| ==> IsWordChar(n[i])
  {
    if IsBundleName(s) {
      var n := s[..|s| - 7];
      assert s == n + ".xctest";
    }
    if n :| s == n + ".xctest" && n != "" && !(48 <= n[0] as int <= 57)
            && forall i :: 0 <= i < |n| ==> IsWordChar(n[i])
    {
      assert s[..|s| - 7] == n && s[|s| - 7..] == ".xctest";
    }
  }

  lemma AbsolutePathsLookLike(path: string)
    ensures IsAbsolute(path) <==> exists rest :: path == "/" + rest
  {
    if IsAbsolute(path) { assert path == "/" + path[1..]; }
  }

  lemma AttachmentNamesLookLike(s: string)
    ensures IsAttachmentName(s) <==> 1 <= |s| <= 256 && forall i :: 0 <= i < |s| ==> s[i] as int !in {0, 10, 13}
  {
  }

  // ----- Splitting

  function Join(parts: seq<string>, sep: char): string {
    if parts == [] then ""
    else if |parts| == 1 then parts[0]
    else Join(parts[..|parts| - 1], sep) + [sep] + parts[|parts| - 1]
  }

  /** The parts are what stands between the separators. */
  lemma {:induction false} SplitIsBetween(s: string, sep: char)
    ensures Join(Split(s, sep), sep) == s
    ensures forall i :: 0 <= i < |Split(s, sep)| ==> sep !in Split(s, sep)[i]
    ensures |Split(s, sep)| >= 2 <==> sep in s
  {
    hide Join;
    NothingToJoin(sep);
    if s != "" {
      var front, last := s[..|s| - 1], s[|s| - 1];
      SplitIsBetween(front, sep);
      var parts := Split(front, sep);
      assert s == front + [last];
      if last == sep { JoinSnoc(parts, "", sep); } else { JoinGrows(parts, last, sep); }
    }
  }

  lemma NothingToJoin(sep: char)
    ensures Join([""], sep) == ""
  {
  }

  lemma JoinSnoc(parts: seq<string>, part: string, sep: char)
    requires parts != []
    ensures Join(parts + [part], sep) == Join(parts, sep) + [sep] + part
  {
    assert (parts + [part])[..|parts|] == parts;
  }

  lemma JoinGrows(parts: seq<string>, x: char, sep: char)
    requires parts != []
    ensures var n := |parts| - 1;
            Join(parts[n := parts[n] + [x]], sep) == Join(parts, sep) + [x]
  {
    var n := |parts| - 1;
    var front := parts[..n];
    if n > 0 {
      assert parts[n := parts[n] + [x]][..n] == front;
      assert Join(front, sep) + [sep] + (parts[n] + [x]) == Join(front, sep) + [sep] + parts[n] + [x];
    }
  }

  /** The last part: empty at the start and behind a separator, and otherwise it ends as the string does. */
  lemma LastPart(s: string, sep: char)
    ensures var parts := Split(s, sep);
            var part := parts[|parts| - 1];
            && (part == "" <==> s == "" || s[|s| - 1] == sep)
            && (part != "" ==> s != "" && part[|part| - 1] == s[|s| - 1])
  {
    if s != "" && s[|s| - 1] != sep {
      var parts := Split(s[..|s| - 1], sep);
      assert Split(s, sep)[|parts| - 1] == parts[|parts| - 1] + [s[|s| - 1]];
    }
  }

  // ----- Bundle identifiers, character by character

  /** Letters, digits, hyphens and dots; behind a dot or at the start neither of the latter, before a dot no hyphen. */
  predicate IsDotted(s: string) {
    forall i :: 0 <= i < |s| ==> DottedAt(s, i)
  }

  predicate DottedAt(s: string, i: nat)
    requires i < |s|
  {
    && (IsLetter(s[i]) || IsDigit(s[i]) || s[i] == '-' || s[i] == '.')
    && (i == 0 || s[i - 1] == '.' ==> s[i] != '.' && s[i] != '-')
    && (i > 0 && s[i] == '.' ==> s[i - 1] != '-')
  }

  /** A component that may still grow. */
  predicate IsBegun(c: string) {
    && (c != "" ==> c[0] != '-')
    && forall i :: 0 <= i < |c| ==> IsLetter(c[i]) || IsDigit(c[i]) || c[i] == '-'
  }

  predicate PartsBegun(parts: seq<string>)
    requires parts != []
  {
    (forall i :: 0 <= i < |parts| - 1 ==> IsComponent(parts[i])) && IsBegun(parts[|parts| - 1])
  }

  lemma DottedSnoc(front: string, x: char)
    ensures IsDotted(front + [x]) <==>
            && IsDotted(front)
            && (IsLetter(x) || IsDigit(x) || x == '-' || x == '.')
            && (front == "" || front[|front| - 1] == '.' ==> x != '.' && x != '-')
            && (x == '.' && front != "" ==> front[|front| - 1] != '-')
  {
    var s := front + [x];
    var n := |front|;
    assert s[n] == x;
    forall i | 0 <= i < n ensures DottedAt(s, i) == DottedAt(front, i) {
      assert s[i] == front[i] && (i > 0 ==> s[i - 1] == front[i - 1]);
    }
    assert IsDotted(s) <==> IsDotted(front) && DottedAt(s, n);
  }

  lemma {:induction false} DottedParts(s: string)
    ensures IsDotted(s) <==> PartsBegun(Split(s, '.'))
  {
    if s != "" {
      var front, x := s[..|s| - 1], s[|s| - 1];
      assert s == front + [x];
      var parts := Split(front, '.');
      DottedParts(front);
      DottedSnoc(front, x);
      LastPart(front, '.');
      if x == '.' {
        LastGrows(parts);
      } else {
        PartGrows(parts, x);
      }
    }
  }

  lemma LastGrows(parts: seq<string>)
    requires parts != []
    ensures PartsBegun(parts + [""]) <==>
            var c := parts[|parts| - 1];
            PartsBegun(parts) && c != "" && c[|c| - 1] != '-'
  {
    var more := parts + [""];
    assert forall i :: 0 <= i < |parts| ==> more[i] == parts[i];
    assert more[|more| - 1] == "";
  }

  lemma PartGrows(parts: seq<string>, x: char)
    requires parts != [] && x != '.'
    ensures var n := |parts| - 1;
            PartsBegun(parts[n := parts[n] + [x]]) <==>
            PartsBegun(parts) && (IsLetter(x) || IsDigit(x) || x == '-') && (parts[n] == "" ==> x != '-')
  {
    var n := |parts| - 1;
    var grown := parts[n := parts[n] + [x]];
    assert forall i :: 0 <= i < n ==> grown[i] == parts[i];
    BegunSnoc(parts[n], x);
  }

  lemma BegunSnoc(c: string, x: char)
    ensures IsBegun(c + [x]) <==>
            IsBegun(c) && (IsLetter(x) || IsDigit(x) || x == '-') && (c == "" ==> x != '-')
  {
    var s := c + [x];
    assert forall i :: 0 <= i < |c| ==> s[i] == c[i];
    assert s[|c|] == x;
  }

  /** A bundle identifier, read character by character: it has a dot, is dotted, and ends in a letter or a digit. */
  lemma BundleIdentifiersLookLike(s: string)
    ensures IsBundleIdentifier(s) <==>
            && 3 <= |s| <= 255
            && '.' in s
            && IsDotted(s)
            && s[|s| - 1] != '.' && s[|s| - 1] != '-'
  {
    SplitIsBetween(s, '.');
    DottedParts(s);
    LastPart(s, '.');
    var parts := Split(s, '.');
    var c := parts[|parts| - 1];
    assert IsComponent(c) <==> IsBegun(c) && c != "" && c[|c| - 1] != '-';
  }

  lemma LettersAndDigits(c: char)
    ensures IsLetter(c) <==> 65 <= c as int <= 90 || 97 <= c as int <= 122
    ensures IsDigit(c) <==> 48 <= c as int <= 57
  {
  }

  // ----- How deep a path leads

  lemma {:induction false} SplitAppend(p: string, name: string, sep: char)
    requires sep !in name
    ensures Split(p + [sep] + name, sep) == Split(p, sep) + [name]
    decreases |name|
  {
    var s := p + [sep] + name;
    var n := |name| - 1;
    if name == "" {
      assert s[..|s| - 1] == p;
    } else {
      assert s[..|s| - 1] == p + [sep] + name[..n];
      SplitAppend(p, name[..n], sep);
      assert name == name[..n] + [name[n]];
    }
  }

  /** One more element: nothing and a dot stay, two dots go up but not above the root, any other name goes down. */
  lemma DepthOfPath(p: string, name: string)
    requires '/' !in name
    ensures var above, here := Depth(Split(p, '/')), Depth(Split(p + "/" + name, '/'));
            here == if name == "" || name == "." then above
                    else if name == ".." then if above == 0 then 0 else above - 1
                    else above + 1
    ensures CleansToRoot("")
  {
    SplitAppend(p, name, '/');
    assert (Split(p, '/') + [name])[..|Split(p, '/')|] == Split(p, '/');
    assert [""][..0] == [];
    assert Depth([""]) == 0;
  }
}
