/** internal/naming/naming.go: bounded names from arbitrary ids. A string is a
    sequence of code points; the two hashes are parameters. */
module Naming {
  import opened Api
  import opened Decimal

  const MAX_NAME_LEN := 63
  const MAX_RELEASE_LEN := 24
  const HASH_SUFFIX_LENGTH := 8
  const DIGEST_LENGTH := 64

  // ---- The sanitizer

  predicate IsLowerAlnum(c: char) {
    'a' <= c <= 'z' || '0' <= c <= '9'
  }

  /** unicode.ToLower, as far as it can yield [a-z0-9]: besides A-Z, only the Kelvin
      sign and the dotted capital I have an ASCII lower case. */
  function Lower(c: char): char {
    if 'A' <= c <= 'Z' then (c as int + 32) as char
    else if c == '\U{212A}' then 'k'
    else if c == '\U{0130}' then 'i'
    else c
  }

  predicate Kept(c: char) {
    IsLowerAlnum(Lower(c))
  }

  /** The runs of kept characters, lowered, joined by single dashes. */
  function Sanitized(s: string): string {
    if s == "" then ""
    else
      var rest := Sanitized(s[1..]);
      if !Kept(s[0]) then rest
      else if rest == "" || Kept(s[1]) then [Lower(s[0])] + rest
      else [Lower(s[0])] + "-" + rest
  }

  /** Lower-case alphanumerics and dashes, no dash first, last or doubled. */
  predicate Clean(s: string) {
    && (forall i :: 0 <= i < |s| ==> IsLowerAlnum(s[i]) || s[i] == '-')
    && (s != "" ==> s[0] != '-' && s[|s| - 1] != '-')
    && (forall i :: 0 <= i < |s| - 1 ==> !(s[i] == '-' && s[i + 1] == '-'))
  }

  lemma CleanCons(c: char, rest: string)
    requires IsLowerAlnum(c) && Clean(rest)
    ensures Clean([c] + rest)
    ensures rest != "" ==> Clean([c] + "-" + rest)
  {
    assert forall i :: 1 <= i < |[c] + rest| ==> ([c] + rest)[i] == rest[i - 1];
    assert forall i :: 2 <= i < |[c] + "-" + rest| ==> ([c] + "-" + rest)[i] == rest[i - 2];
  }

  lemma CleanEmpty()
    ensures Clean("")
  {
  }

  lemma {:induction false} SanitizedIsClean(s: string)
    ensures Clean(Sanitized(s))
    ensures s != "" && Kept(s[0]) ==> Sanitized(s) != ""
  {
    hide Clean;
    if s == "" {
      CleanEmpty();
    } else {
      SanitizedIsClean(s[1..]);
      if Kept(s[0]) {
        CleanCons(Lower(s[0]), Sanitized(s[1..]));
      }
    }
  }

  lemma {:induction false} CleanIsFixed(s: string)
    requires Clean(s)
    ensures Sanitized(s) == s
  {
    if |s| == 1 {
      assert s[1..] == "";
    } else if |s| > 1 {
      if s[1] != '-' {
        CleanIsFixed(s[1..]);
        assert s == [s[0]] + s[1..];
      } else {
        CleanIsFixed(s[2..]);
        assert s[1..][1..] == s[2..];
        assert Sanitized(s[1..]) == s[2..];
        assert s == [s[0]] + "-" + s[2..];
      }
    }
  }

  /** What the sanitizer leaves alone is exactly what is clean, so it is idempotent. */
  lemma SanitizedFixpoints(s: string)
    ensures Sanitized(s) == s <==> Clean(s)
    ensures Sanitized(Sanitized(s)) == Sanitized(s)
  {
    SanitizedIsClean(s);
    CleanIsFixed(Sanitized(s));
    if Clean(s) {
      CleanIsFixed(s);
    }
  }

  function TrimDashes(s: string): (r: string)
    ensures r <= s
    ensures r == "" || r[|r| - 1] != '-'
    ensures forall i :: |r| <= i < |s| ==> s[i] == '-'
  {
    if s != "" && s[|s| - 1] == '-' then TrimDashes(s[..|s| - 1]) else s
  }

  /** Reading one more character. */
  lemma {:induction false} SanitizedSnoc(p: string, c: char)
    ensures !Kept(c) ==> Sanitized(p + [c]) == Sanitized(p)
    ensures Kept(c) ==>
              Sanitized(p + [c]) ==
              Sanitized(p) + (if Sanitized(p) != "" && !Kept(p[|p| - 1]) then "-" else "") + [Lower(c)]
  {
    if p == "" {
      assert p + [c] == [c];
      assert [c][1..] == "";
    } else {
      var t := p[1..];
      assert (p + [c])[1..] == t + [c] && (p + [c])[0] == p[0];
      SanitizedSnoc(t, c);
      if t == "" {
        assert t + [c] == [c];
      } else {
        assert t[|t| - 1] == p[|p| - 1] && (t + [c])[0] == t[0] == p[1];
      }
      SanitizedEmpty(t);
    }
  }

  /** Nothing kept, nothing left. */
  lemma {:induction false} SanitizedEmpty(s: string)
    ensures Sanitized(s) == "" <==> forall i :: 0 <= i < |s| ==> !Kept(s[i])
  {
    if s != "" {
      SanitizedEmpty(s[1..]);
      assert forall i :: 1 <= i < |s| ==> s[i] == s[1..][i - 1];
    }
  }

  // ---- What the sanitizer means, character by character

  predicate IsAlnum(c: char) {
    'a' <= c <= 'z' || 'A' <= c <= 'Z' || '0' <= c <= '9'
  }

  /** Two strings with the same characters kept, lowered alike, are sanitized alike. */
  lemma {:induction false} SameSanitized(s: string, t: string)
    requires |s| == |t|
    requires forall i :: 0 <= i < |s| ==> Kept(s[i]) == Kept(t[i]) && (Kept(s[i]) ==> Lower(s[i]) == Lower(t[i]))
    ensures Sanitized(s) == Sanitized(t)
  {
    hide Kept, Lower;
    if s != "" {
      SameSanitized(s[1..], t[1..]);
    }
  }

  /** A capital is read as its small letter. */
  lemma CapitalsAreLowered(p: string, c: char, q: string)
    requires 'A' <= c <= 'Z'
    ensures Sanitized(p + [c] + q) == Sanitized(p + [(c as int + 32) as char] + q)
  {
    SameSanitized(p + [c] + q, p + [(c as int + 32) as char] + q);
  }

  /** Anything but a letter or a digit is read as a dash; of the rest of Unicode only two
      characters have a small letter of [a-z]. */
  lemma OthersAreDashes(p: string, c: char, q: string)
    requires !IsAlnum(c) && c != '\U{212A}' && c != '\U{0130}'
    ensures Sanitized(p + [c] + q) == Sanitized(p + "-" + q)
    ensures Sanitized(p + "\U{212A}" + q) == Sanitized(p + "k" + q)
    ensures Sanitized(p + "\U{0130}" + q) == Sanitized(p + "i" + q)
  {
    SameSanitized(p + [c] + q, p + "-" + q);
    SameSanitized(p + "\U{212A}" + q, p + "k" + q);
    SameSanitized(p + "\U{0130}" + q, p + "i" + q);
  }

  /** Dashes at the ends go and doubled ones collapse. What is left is clean, and clean
      strings stay: with the two laws above this determines the sanitizer. */
  lemma {:induction false} DashesCollapse(p: string, q: string)
    ensures Sanitized(p + "--" + q) == Sanitized(p + "-" + q)
    ensures Sanitized("-" + q) == Sanitized(q)
    ensures Sanitized(p + "-") == Sanitized(p)
  {
    assert ("-" + q)[1..] == q && ("--" + q)[1..] == "-" + q;
    SanitizedSnoc(p, '-');
    if p == "" {
      assert p + "--" + q == "--" + q && p + "-" + q == "-" + q;
    } else {
      assert (p + "--" + q)[1..] == p[1..] + "--" + q && (p + "-" + q)[1..] == p[1..] + "-" + q;
      DashesCollapse(p[1..], q);
    }
  }

  /** The letters and digits of a string, in small letters. */
  function Letters(s: string): string {
    if s == "" then ""
    else
      var c, rest := s[0], Letters(s[1..]);
      if 'A' <= c <= 'Z' then [(c as int + 32) as char] + rest
      else if 'a' <= c <= 'z' || '0' <= c <= '9' then [c] + rest
      else rest
  }

  function Undashed(s: string): string {
    if s == "" then "" else (if s[0] == '-' then "" else [s[0]]) + Undashed(s[1..])
  }

  lemma LettersCons(c: char, rest: string)
    requires c as int < 128
    ensures Letters([c] + rest) == (if Kept(c) then [Lower(c)] else "") + Letters(rest)
    ensures Kept(c) ==> Lower(c) != '-'
  {
    assert ([c] + rest)[1..] == rest;
  }

  lemma UndashedCons(c: char, rest: string)
    ensures Undashed([c] + rest) == (if c == '-' then "" else [c]) + Undashed(rest)
  {
    assert ([c] + rest)[1..] == rest;
  }

  /** No letter or digit is lost, changed but in case, or moved. */
  lemma {:induction false} LettersAreKept(s: string)
    requires forall i :: 0 <= i < |s| ==> s[i] as int < 128
    ensures Undashed(Sanitized(s)) == Letters(s)
  {
    if s != "" {
      hide Kept, Lower, Letters, Undashed;
      LettersAreKept(s[1..]);
      var c, rest := Lower(s[0]), Sanitized(s[1..]);
      assert s == [s[0]] + s[1..];
      LettersCons(s[0], s[1..]);
      UndashedCons(c, rest);
      UndashedCons('-', rest);
      UndashedCons(c, "-" + rest);
      assert [c] + "-" + rest == [c] + ("-" + rest);
    }
  }

  method SanitizeRFC1123(s: string) returns (out: string, altered: bool)
    ensures out == Sanitized(s)
    ensures altered <==> !Clean(s)
  {
    var b := "";
    var lastDash := false;
    for i := 0 to |s|
      invariant lastDash <==> i > 0 && !Kept(s[i - 1])
      invariant b == Sanitized(s[..i]) + if lastDash && Sanitized(s[..i]) != "" then "-" else ""
    {
      assert s[..i + 1] == s[..i] + [s[i]];
      SanitizedSnoc(s[..i], s[i]);
      var r := Lower(s[i]);
      if IsLowerAlnum(r) {
        b := b + [r];
        lastDash := false;
      } else {
        if !lastDash && |b| > 0 {
          b := b + "-";
        }
        lastDash := true;
      }
    }
    assert s[..|s|] == s;
    SanitizedIsClean(s);
    SanitizedFixpoints(s);
    out := TrimDashes(b);
    altered := out != s;
  }

  // ---- Scoped names

  function Truncated(s: string, n: nat): string {
    if |s| > n then TrimDashes(s[..n]) else s
  }

  /** `cut` is `s` if that has at most `n` characters, else its first `n` without the
      dashes they end in. */
  predicate IsCut(s: string, cut: string, n: nat) {
    if |s| <= n then cut == s
    else
      && |cut| <= n && cut == s[..|cut|] && (cut == "" || cut[|cut| - 1] != '-')
      && forall i :: |cut| <= i < n ==> s[i] == '-'
  }

  lemma CutOf(s: string, n: nat)
    ensures IsCut(s, Truncated(s, n), n)
  {
  }

  function ReleasePrefix(release: string): string {
    var rel := Truncated(Sanitized(release), MAX_RELEASE_LEN);
    if rel == "" then "" else rel + "-"
  }

  /** scopedName: prefix, sanitized id cut to what fits, and a hash of the raw id
      whenever sanitizing or cutting changed it. */
  function ScopedName(fnv: string -> string, release: string, kind: string, raw: string): string {
    var prefix := ReleasePrefix(release) + kind + "-";
    var maxId := MAX_NAME_LEN - |prefix| - 1 - HASH_SUFFIX_LENGTH;
    var id := Truncated(Sanitized(raw), if maxId < 0 then 0 else maxId);
    if id != raw || id == "" then prefix + id + "-" + fnv(raw) else prefix + id
  }

  function SandboxName(fnv: string -> string, release: string, sessionId: string): string {
    ScopedName(fnv, release, "cs", sessionId)
  }

  method MakeReleasePrefix(release: string) returns (prefix: string)
    ensures prefix == ReleasePrefix(release)
  {
    var rel, _ := SanitizeRFC1123(release);
    if |rel| > MAX_RELEASE_LEN {
      rel := TrimDashes(rel[..MAX_RELEASE_LEN]);
    }
    if rel == "" {
      return "";
    }
    return rel + "-";
  }

  method MakeSandboxName(fnv: string -> string, release: string, raw: string) returns (name: string)
    ensures name == SandboxName(fnv, release, raw)
  {
    var relPrefix := MakeReleasePrefix(release);
    ReleasePrefixShape(release);
    var prefix := relPrefix + "cs" + "-";
    var maxId := MAX_NAME_LEN - |prefix| - 1 - HASH_SUFFIX_LENGTH;
    var sanitized, altered := SanitizeRFC1123(raw);
    SanitizedFixpoints(raw);
    if |sanitized| > maxId {
      CutIsDifferent(raw, maxId);
      sanitized := TrimDashes(sanitized[..maxId]);
      altered := true;
    }
    if altered || sanitized == "" {
      return prefix + sanitized + "-" + fnv(raw);
    }
    return prefix + sanitized;
  }

  /** A cut id never equals the raw one. */
  lemma CutIsDifferent(raw: string, n: nat)
    requires |Sanitized(raw)| > n
    ensures TrimDashes(Sanitized(raw)[..n]) != raw
  {
    if TrimDashes(Sanitized(raw)[..n]) == raw {
      SanitizedIsShorter(raw);
    }
  }

  lemma {:induction false} SanitizedIsShorter(s: string)
    ensures |Sanitized(s)| <= |s|
    ensures s != "" && !Kept(s[0]) ==> |Sanitized(s)| < |s|
  {
    if s != "" {
      SanitizedIsShorter(s[1..]);
    }
  }

  predicate IsLabelText(s: string) {
    forall i :: 0 <= i < |s| ==> IsLowerAlnum(s[i]) || s[i] == '-'
  }

  /** A DNS label (section 2.1 of RFC 1123, lower case as Kubernetes wants it). */
  predicate IsDnsLabel(s: string) {
    0 < |s| <= MAX_NAME_LEN && IsLabelText(s) && s[0] != '-' && s[|s| - 1] != '-'
  }

  /** Eight hexadecimal digits, whatever was hashed. */
  ghost predicate HexWidth8(fnv: string -> string) {
    forall x ::
      && |fnv(x)| == HASH_SUFFIX_LENGTH
      && forall i :: 0 <= i < |fnv(x)| ==> '0' <= fnv(x)[i] <= '9' || 'a' <= fnv(x)[i] <= 'f'
  }

  lemma TruncatedShape(s: string, n: nat)
    requires Clean(s)
    ensures |Truncated(s, n)| <= n && IsLabelText(Truncated(s, n))
    ensures Truncated(s, n) != "" ==> Truncated(s, n)[0] != '-' && Truncated(s, n)[|Truncated(s, n)| - 1] != '-'
    ensures s != "" && n > 0 ==> Truncated(s, n) != ""
  {
    if |s| > n > 0 {
      assert s[..n][0] == s[0];
    }
  }

  lemma ReleasePrefixShape(release: string)
    ensures |ReleasePrefix(release)| <= MAX_RELEASE_LEN + 1
    ensures IsLabelText(ReleasePrefix(release))
    ensures ReleasePrefix(release) != "" ==> ReleasePrefix(release)[0] != '-'
    ensures ReleasePrefix(release) == "" <==> forall i :: 0 <= i < |release| ==> !Kept(release[i])
  {
    SanitizedIsClean(release);
    SanitizedEmpty(release);
    TruncatedShape(Sanitized(release), MAX_RELEASE_LEN);
  }

  lemma LabelTextAppend(a: string, b: string)
    requires IsLabelText(a) && IsLabelText(b)
    ensures IsLabelText(a + b)
  {
  }

  /** For every release and id, the Sandbox name is a DNS label. */
  lemma SandboxNameIsDnsLabel(fnv: string -> string, release: string, sessionId: string)
    requires HexWidth8(fnv)
    ensures IsDnsLabel(SandboxName(fnv, release, sessionId))
  {
    hide SandboxName, IsDnsLabel, IsLabelText, ReleasePrefix, HexWidth8, ShortId, IsLowerAlnum;
    NameSplits(fnv, release, sessionId);
    PrefixShape(release);
    ShortIdShape(release, sessionId);
    var id := ShortId(release, sessionId);
    if Hashed(release, sessionId) {
      HashShape(fnv, sessionId);
      HashedIdShape(id, fnv(sessionId));
      JoinedIsDnsLabel(ReleasePrefix(release) + "cs" + "-", id + "-" + fnv(sessionId));
    } else {
      JoinedIsDnsLabel(ReleasePrefix(release) + "cs" + "-", id);
    }
  }

  lemma PrefixShape(release: string)
    ensures var prefix := ReleasePrefix(release) + "cs" + "-";
            |prefix| <= MAX_RELEASE_LEN + 4 && IsLabelText(prefix) && prefix != "" && prefix[0] != '-'
  {
    hide ReleasePrefix;
    ReleasePrefixShape(release);
    var prefix := ReleasePrefix(release) + "cs" + "-";
    assert prefix[0] == if ReleasePrefix(release) == "" then 'c' else ReleasePrefix(release)[0];
  }

  lemma ShortIdShape(release: string, sessionId: string)
    ensures var id := ShortId(release, sessionId);
            && IsLabelText(id) && (id != "" ==> id[|id| - 1] != '-')
            && |ReleasePrefix(release) + "cs" + "-"| + |id| + 1 + HASH_SUFFIX_LENGTH <= MAX_NAME_LEN
  {
    hide Truncated, Clean, Sanitized, IsLabelText;
    ReleasePrefixShape(release);
    SanitizedIsClean(sessionId);
    TruncatedShape(Sanitized(sessionId), MAX_NAME_LEN - |ReleasePrefix(release) + "cs" + "-"| - 1 - HASH_SUFFIX_LENGTH);
  }

  lemma HashShape(fnv: string -> string, x: string)
    requires HexWidth8(fnv)
    ensures |fnv(x)| == HASH_SUFFIX_LENGTH && IsLabelText(fnv(x)) && fnv(x)[HASH_SUFFIX_LENGTH - 1] != '-'
  {
  }

  lemma HashedIdShape(id: string, hash: string)
    requires IsLabelText(id) && IsLabelText(hash) && hash != "" && hash[|hash| - 1] != '-'
    ensures var tail := id + "-" + hash;
            |tail| == |id| + 1 + |hash| && IsLabelText(tail) && tail[|tail| - 1] != '-'
  {
    LabelTextAppend(id, "-");
    LabelTextAppend(id + "-", hash);
  }

  lemma JoinedIsDnsLabel(prefix: string, tail: string)
    requires IsLabelText(prefix) && IsLabelText(tail) && prefix != "" && tail != ""
    requires prefix[0] != '-' && tail[|tail| - 1] != '-' && |prefix| + |tail| <= MAX_NAME_LEN
    ensures IsDnsLabel(prefix + tail)
  {
    LabelTextAppend(prefix, tail);
  }

  /** Whether a name carries a hash. */
  predicate Hashed(release: string, sessionId: string) {
    ShortId(release, sessionId) != sessionId || sessionId == ""
  }

  function ShortId(release: string, sessionId: string): string {
    var maxId := MAX_NAME_LEN - |ReleasePrefix(release) + "cs" + "-"| - 1 - HASH_SUFFIX_LENGTH;
    Truncated(Sanitized(sessionId), if maxId < 0 then 0 else maxId)
  }

  /** For one release, two sessions share a name only if they are the same session, or
      their hashes collide, or one session id is literally the other's sanitized form
      with its hash. */
  lemma EqualNamesOfOneRelease(fnv: string -> string, release: string, a: string, b: string)
    requires HexWidth8(fnv)
    requires SandboxName(fnv, release, a) == SandboxName(fnv, release, b)
    ensures Hashed(release, a) && Hashed(release, b) ==> fnv(a) == fnv(b) && ShortId(release, a) == ShortId(release, b)
    ensures !Hashed(release, a) && !Hashed(release, b) ==> a == b
    ensures !Hashed(release, a) && Hashed(release, b) ==> a == ShortId(release, b) + "-" + fnv(b)
    ensures Hashed(release, a) && !Hashed(release, b) ==> b == ShortId(release, a) + "-" + fnv(a)
  {
    var prefix := ReleasePrefix(release) + "cs" + "-";
    var ta := if Hashed(release, a) then ShortId(release, a) + "-" + fnv(a) else a;
    var tb := if Hashed(release, b) then ShortId(release, b) + "-" + fnv(b) else b;
    NameSplits(fnv, release, a);
    NameSplits(fnv, release, b);
    assert SandboxName(fnv, release, a) == prefix + ta && SandboxName(fnv, release, b) == prefix + tb;
    CancelPrefix(prefix, ta, tb);
    if Hashed(release, a) && Hashed(release, b) {
      CancelSuffix(ShortId(release, a) + "-", fnv(a), ShortId(release, b) + "-", fnv(b));
      CancelSuffix(ShortId(release, a), "-", ShortId(release, b), "-");
    }
  }

  lemma NameSplits(fnv: string -> string, release: string, a: string)
    ensures SandboxName(fnv, release, a) ==
            ReleasePrefix(release) + "cs" + "-" + if Hashed(release, a) then ShortId(release, a) + "-" + fnv(a) else a
  {
    var prefix := ReleasePrefix(release) + "cs" + "-";
    assert prefix + ShortId(release, a) + "-" + fnv(a) == prefix + (ShortId(release, a) + "-" + fnv(a));
  }

  lemma CancelPrefix(p: string, a: string, b: string)
    requires p + a == p + b
    ensures a == b
  {
    assert (p + a)[|p|..] == a && (p + b)[|p|..] == b;
  }

  lemma CancelSuffix(a: string, x: string, b: string, y: string)
    requires a + x == b + y && |x| == |y|
    ensures a == b && x == y
  {
    assert (a + x)[..|a|] == a && (b + y)[..|b|] == b;
    assert (a + x)[|a|..] == x && (b + y)[|b|..] == y;
  }

  /** The release's part of a name: its sanitized form cut to 24, and a dash, or nothing. */
  lemma ReleasePrefixIs(release: string)
    ensures exists cut :: IsCut(Sanitized(release), cut, 24) &&
                          ReleasePrefix(release) == if cut == "" then "" else cut + "-"
  {
    CutOf(Sanitized(release), 24);
  }

  /** A session's name: the id itself if it is clean and all fits into 63 with the room of a
      hash to spare, else the sanitized id cut to what fits and the hash of the id. */
  lemma SandboxNameIs(fnv: string -> string, release: string, id: string)
    ensures var scope := ReleasePrefix(release) + "cs-";
            && |scope| <= 28
            && if Clean(id) && id != "" && |scope| + |id| <= 54 then SandboxName(fnv, release, id) == scope + id
               else exists cut :: IsCut(Sanitized(id), cut, 54 - |scope|) &&
                                  SandboxName(fnv, release, id) == scope + cut + "-" + fnv(id)
  {
    hide Clean, Sanitized, ReleasePrefix, IsCut, SandboxName;
    var scope := ReleasePrefix(release) + "cs-";
    assert Scope(release) == scope;
    ScopeIsClean(release);
    if Clean(id) && id != "" && |scope| + |id| <= 54 {
      PlainName(fnv, release, id);
    } else {
      var cut := HashedName(fnv, release, id);
    }
  }

  lemma HashedName(fnv: string -> string, release: string, id: string) returns (cut: string)
    requires |Scope(release)| <= 28 && !(Clean(id) && id != "" && |Scope(release)| + |id| <= 54)
    ensures IsCut(Sanitized(id), cut, 54 - |Scope(release)|)
    ensures SandboxName(fnv, release, id) == Scope(release) + cut + "-" + fnv(id)
  {
    hide Clean, Sanitized, ReleasePrefix, IsCut, TrimDashes;
    var n: nat := 54 - |Scope(release)|;
    cut := Truncated(Sanitized(id), n);
    CutOf(Sanitized(id), n);
    SanitizedFixpoints(id);
    if |Sanitized(id)| > n {
      CutIsDifferent(id, n);
    }
  }

  // ---- Names of two releases

  /** What every name of a release starts with. */
  function Scope(release: string): string {
    ReleasePrefix(release) + "cs" + "-"
  }

  lemma PrefixesCompare(p: string, x: string, q: string, y: string)
    requires p + x == q + y
    ensures p <= q || q <= p
  {
    if |p| <= |q| {
      assert p == (p + x)[..|p|] == (q + y)[..|p|] == q[..|p|];
    } else {
      assert q == (q + y)[..|q|] == (p + x)[..|q|] == p[..|q|];
    }
  }

  lemma TruncatedIsClean(s: string, n: nat)
    requires Clean(s) && n > 0
    ensures Clean(Truncated(s, n))
  {
    TruncatedShape(s, n);
    assert Truncated(s, n) <= s;
  }

  /** Behind its scope, a name has no dash to begin with. */
  lemma ScopeIsClean(release: string)
    ensures Clean(Scope(release) + "x") && |Scope(release)| <= MAX_RELEASE_LEN + 4
  {
    hide ReleasePrefix, Sanitized, Truncated;
    ReleasePrefixShape(release);
    if ReleasePrefix(release) != "" {
      var rel := Truncated(Sanitized(release), MAX_RELEASE_LEN);
      SanitizedIsClean(release);
      TruncatedIsClean(Sanitized(release), MAX_RELEASE_LEN);
      assert ReleasePrefix(release) == rel + "-" by { PrefixIsDashed(release); }
      assert Scope(release) + "x" == rel + "-cs-x";
      DashedIsClean(rel, "cs-x");
    } else {
      assert Scope(release) + "x" == "cs-x";
    }
  }

  lemma PrefixIsDashed(release: string)
    requires ReleasePrefix(release) != ""
    ensures Truncated(Sanitized(release), MAX_RELEASE_LEN) != ""
    ensures ReleasePrefix(release) == Truncated(Sanitized(release), MAX_RELEASE_LEN) + "-"
  {
    hide Sanitized, Truncated;
  }

  lemma DashedIsClean(a: string, b: string)
    requires Clean(a) && Clean(b) && a != "" && b != ""
    ensures Clean(a + "-" + b)
  {
    hide IsLowerAlnum;
    var s := a + "-" + b;
    assert s[|a|] == '-';
    forall i | 0 <= i < |s| && i != |a|
      ensures (IsLowerAlnum(s[i]) || s[i] == '-') && s[i] == if i < |a| then a[i] else b[i - |a| - 1]
    {
    }
  }

  lemma SuffixIsClean(s: string, n: nat)
    requires Clean(s) && 0 < n < |s| && s[n - 1] == '-'
    ensures Clean(s[n..])
  {
  }

  /** A clean id short enough is used as it is. */
  lemma PlainName(fnv: string -> string, release: string, sessionId: string)
    requires Clean(sessionId) && sessionId != ""
    requires |Scope(release)| + |sessionId| <= MAX_NAME_LEN - 1 - HASH_SUFFIX_LENGTH
    ensures SandboxName(fnv, release, sessionId) == Scope(release) + sessionId
  {
    hide Sanitized, Clean, TrimDashes, ReleasePrefix;
    CleanIsFixed(sessionId);
  }

  /** What follows the shorter scope in the first name of the longer. */
  function MeetingId(release: string, longer: string): string
    requires Scope(release) <= Scope(longer)
  {
    (Scope(longer) + "x")[|Scope(release)|..]
  }

  lemma ScopedNamesMeet(fnv: string -> string, release: string, longer: string)
    requires Scope(release) <= Scope(longer)
    ensures SandboxName(fnv, release, MeetingId(release, longer)) == SandboxName(fnv, longer, "x")
  {
    hide ReleasePrefix, Sanitized;
    var name := Scope(longer) + "x";
    ScopeIsClean(longer);
    SuffixIsClean(name, |Scope(release)|);
    PlainName(fnv, release, MeetingId(release, longer));
    assert Clean("x");
    PlainName(fnv, longer, "x");
    assert name == Scope(release) + MeetingId(release, longer);
  }

  /** Two releases have a Sandbox name in common, for some two sessions, exactly when the
      scope of one starts with that of the other. */
  lemma ReleasesMeetIff(fnv: string -> string, r1: string, r2: string)
    ensures (exists a, b :: SandboxName(fnv, r1, a) == SandboxName(fnv, r2, b)) <==>
              Scope(r1) <= Scope(r2) || Scope(r2) <= Scope(r1)
  {
    hide Scope, SandboxName;
    forall a, b | SandboxName(fnv, r1, a) == SandboxName(fnv, r2, b)
      ensures Scope(r1) <= Scope(r2) || Scope(r2) <= Scope(r1)
    {
      var x := ScopedTail(fnv, r1, a);
      var y := ScopedTail(fnv, r2, b);
      PrefixesCompare(Scope(r1), x, Scope(r2), y);
    }
    if Scope(r1) <= Scope(r2) {
      ScopedNamesMeet(fnv, r1, r2);
    } else if Scope(r2) <= Scope(r1) {
      ScopedNamesMeet(fnv, r2, r1);
      assert SandboxName(fnv, r1, "x") == SandboxName(fnv, r2, MeetingId(r2, r1));
    }
  }

  lemma ScopedTail(fnv: string -> string, release: string, a: string) returns (tail: string)
    ensures SandboxName(fnv, release, a) == Scope(release) + tail
  {
    hide SandboxName, Hashed, ShortId;
    NameSplits(fnv, release, a);
    tail := if Hashed(release, a) then ShortId(release, a) + "-" + fnv(a) else a;
  }

  /** So the release "a" with session "cs-x" meets the release "a-cs" with session "x". */
  lemma NamesOfTwoReleasesCanMeet(fnv: string -> string)
    ensures SandboxName(fnv, "a", "cs-x") == SandboxName(fnv, "a-cs", "x")
  {
    hide Sanitized, SandboxName;
    assert Clean("a") && Clean("a-cs");
    CleanIsFixed("a");
    CleanIsFixed("a-cs");
    assert Scope("a") == "a-cs-" && Scope("a-cs") == "a-cs-cs-";
    assert "a-cs-cs-"[..5] == "a-cs-" && ("a-cs-cs-" + "x")[5..] == "cs-x";
    ScopedNamesMeet(fnv, "a", "a-cs");
  }

  // ---- Label values

  predicate IsValidLabelValue(v: string) {
    |v| <= MAX_NAME_LEN &&
    forall i :: 0 <= i < |v| ==>
      if i == 0 || i == |v| - 1 then IsAlnum(v[i]) else IsAlnum(v[i]) || v[i] == '-' || v[i] == '_' || v[i] == '.'
  }

  function LabelValue(fnv: string -> string, v: string): string {
    if v == "" then ""
    else if IsValidLabelValue(v) then v
    else Truncated(Sanitized(v), MAX_NAME_LEN - HASH_SUFFIX_LENGTH - 1) + "-" + fnv(v)
  }

  method MakeLabelValue(fnv: string -> string, v: string) returns (value: string)
    ensures value == LabelValue(fnv, v)
  {
    if v == "" {
      return "";
    }
    if IsValidLabelValue(v) {
      return v;
    }
    var sanitized, _ := SanitizeRFC1123(v);
    if |sanitized| > MAX_NAME_LEN - HASH_SUFFIX_LENGTH - 1 {
      sanitized := TrimDashes(sanitized[..MAX_NAME_LEN - HASH_SUFFIX_LENGTH - 1]);
    }
    return sanitized + "-" + fnv(v);
  }

  /** LabelValue's result is a valid label value exactly when the id already is one or
      has a character the sanitizer keeps; otherwise it starts with a dash. */
  lemma LabelValueIsValidIff(fnv: string -> string, v: string)
    requires HexWidth8(fnv)
    ensures IsValidLabelValue(LabelValue(fnv, v)) <==> IsValidLabelValue(v) || exists i :: 0 <= i < |v| && Kept(v[i])
  {
    if !IsValidLabelValue(v) {
      SanitizedIsClean(v);
      SanitizedEmpty(v);
      TruncatedShape(Sanitized(v), MAX_NAME_LEN - HASH_SUFFIX_LENGTH - 1);
      var t := Truncated(Sanitized(v), MAX_NAME_LEN - HASH_SUFFIX_LENGTH - 1);
      var r := t + "-" + fnv(v);
      if t == "" {
        assert r[0] == '-';
      } else {
        assert r[|r| - 1] == fnv(v)[HASH_SUFFIX_LENGTH - 1] && r[0] == t[0];
        assert forall i :: |t| < i < |r| ==> r[i] == fnv(v)[i - |t| - 1];
        assert r[|t|] == '-';
      }
    }
  }

  /** What may stand inside a label value besides letters and digits. */
  predicate IsMark(c: char) {
    c == '-' || c == '_' || c == '.'
  }

  /** At most 63 characters, letters and digits at both ends, and between them also dashes,
      underscores and dots. */
  predicate MayLabel(v: string) {
    && |v| <= 63
    && (v != "" ==> IsAlnum(v[0]) && IsAlnum(v[|v| - 1]))
    && forall i :: 0 <= i < |v| ==> IsAlnum(v[i]) || IsMark(v[i])
  }

  lemma ValidMayLabel(v: string)
    ensures IsValidLabelValue(v) <==> MayLabel(v)
  {
    hide IsAlnum;
    if IsValidLabelValue(v) {
      forall i | 0 <= i < |v| ensures IsAlnum(v[i]) || IsMark(v[i]) {
      }
    }
  }

  /** An id that may be a label value is its own; any other gets its sanitized form, cut to
      54, and its hash. */
  lemma LabelValueIs(fnv: string -> string, v: string)
    ensures if MayLabel(v) then LabelValue(fnv, v) == v
            else exists cut :: IsCut(Sanitized(v), cut, 54) && LabelValue(fnv, v) == cut + "-" + fnv(v)
  {
    hide IsValidLabelValue, Sanitized, IsCut, TrimDashes;
    ValidMayLabel(v);
    CutOf(Sanitized(v), 54);
  }

  /** The id "_" is such an id: its label value is no label value. */
  lemma LabelValueCanBeInvalid(fnv: string -> string)
    requires HexWidth8(fnv)
    ensures !IsValidLabelValue(LabelValue(fnv, "_"))
  {
    assert "_"[0] == '_' && Lower('_') == '_';
    LabelValueIsValidIff(fnv, "_");
  }

  // ---- Work-order Secret names

  /** What is hashed: every part behind its length. */
  function Encode(parts: seq<string>): string {
    if parts == [] then "" else Encode(parts[..|parts| - 1]) + Framed(parts[|parts| - 1])
  }

  function Framed(part: string): string {
    Digits(|part|) + ":" + part
  }

  function DigitRun(s: string): (n: nat)
    ensures n <= |s| && AllDigits(s[..n]) && (n < |s| ==> !IsDigit(s[n]))
  {
    if s == "" || !IsDigit(s[0]) then 0
    else
      var n := DigitRun(s[1..]) + 1;
      assert s[..n] == [s[0]] + s[1..][..n - 1];
      n
  }

  /** The decoder: a length, a colon, that many characters, and so on. */
  function Decode(s: string): Option<seq<string>> {
    if s == "" then Some([])
    else
      var n := DigitRun(s);
      if n == 0 || n == |s| || s[n] != ':' then None
      else
        var length := Number(s[..n]);
        if n + 1 + length > |s| then None
        else
          match Decode(s[n + 1 + length..])
          case None => None
          case Some(rest) => Some([s[n + 1..n + 1 + length]] + rest)
  }

  lemma {:induction false} DigitRunStops(d: string, s: string)
    requires AllDigits(d) && s != "" && !IsDigit(s[0])
    ensures DigitRun(d + s) == |d|
  {
    if d != "" {
      assert (d + s)[1..] == d[1..] + s;
      DigitRunStops(d[1..], s);
    } else {
      assert d + s == s;
    }
  }

  lemma DecodeFramed(part: string, s: string)
    ensures Decode(Framed(part) + s) == Prepended([part], Decode(s))
  {
    var d := Digits(|part|);
    var whole := Framed(part) + s;
    assert whole == d + (":" + part + s);
    DigitRunStops(d, ":" + part + s);
    NumberOfDigits(|part|);
    assert whole[..|d|] == d && whole[|d|] == ':';
    assert whole[|d| + 1..|d| + 1 + |part|] == part;
    assert whole[|d| + 1 + |part|..] == s;
  }

  /** What decoding `front` and then `rest` gives. */
  function Prepended(front: seq<string>, rest: Option<seq<string>>): Option<seq<string>> {
    match rest
    case None => None
    case Some(parts) => Some(front + parts)
  }

  lemma {:induction false} DecodeEncodeAppend(parts: seq<string>, s: string)
    ensures Decode(Encode(parts) + s) == Prepended(parts, Decode(s))
  {
    hide Decode;
    if parts == [] {
      assert Encode(parts) + s == s;
      assert forall rest: seq<string> :: [] + rest == rest;
    } else {
      var init, last := parts[..|parts| - 1], parts[|parts| - 1];
      assert parts == init + [last];
      assert Encode(parts) + s == Encode(init) + (Framed(last) + s);
      DecodeEncodeAppend(init, Framed(last) + s);
      DecodeFramed(last, s);
      PrependedTwice(init, last, Decode(s));
    }
  }

  lemma PrependedTwice(init: seq<string>, last: string, rest: Option<seq<string>>)
    ensures Prepended(init, Prepended([last], rest)) == Prepended(init + [last], rest)
  {
    if rest.Some? {
      assert init + ([last] + rest.value) == (init + [last]) + rest.value;
    }
  }

  /** Decoding inverts encoding, for any number of parts of any content. */
  lemma DecodeEncode(parts: seq<string>)
    ensures Decode(Encode(parts)) == Some(parts)
  {
    DecodeEncodeAppend(parts, "");
    assert Encode(parts) + "" == Encode(parts);
    assert parts + [] == parts;
  }

  /** Hence no two part lists share an encoding. */
  lemma EncodeInjective(a: seq<string>, b: seq<string>)
    requires Encode(a) == Encode(b)
    ensures a == b
  {
    DecodeEncode(a);
    DecodeEncode(b);
  }

  function SecretParts(release: string, session: string, uid: string, order: string): seq<string> {
    [release, session, uid, order]
  }

  function WorkOrderSecretName(digest: string -> string, release: string, session: string, uid: string,
                               order: string): string
  {
    ReleasePrefix(release) + "wo" + "-" + digest(Encode(SecretParts(release, session, uid, order)))
  }

  /** The name spelled out: a digest of the four parts, each behind its length. */
  lemma WorkOrderSecretNameIs(digest: string -> string, release: string, session: string, uid: string, order: string)
    ensures WorkOrderSecretName(digest, release, session, uid, order) ==
            ReleasePrefix(release) + "wo-" + digest(Framed(release) + Framed(session) + Framed(uid) + Framed(order))
  {
    hide ReleasePrefix, Framed, Encode;
    EncodeOf(release, session, uid, order);
    assert ReleasePrefix(release) + "wo" + "-" == ReleasePrefix(release) + "wo-";
  }

  lemma EncodeOf(a: string, b: string, c: string, d: string)
    ensures Encode([a, b, c, d]) == Framed(a) + Framed(b) + Framed(c) + Framed(d)
  {
    hide Framed;
    EncodeSnoc([], a);
    EncodeSnoc([a], b);
    EncodeSnoc([a, b], c);
    EncodeSnoc([a, b, c], d);
    assert [] + [a] == [a] && [a] + [b] == [a, b] && [a, b] + [c] == [a, b, c] && [a, b, c] + [d] == [a, b, c, d];
  }

  lemma EncodeSnoc(parts: seq<string>, part: string)
    ensures Encode(parts + [part]) == Encode(parts) + Framed(part)
  {
    assert (parts + [part])[..|parts|] == parts;
  }

  /** The loop that feeds the hash. */
  method MakeWorkOrderSecretName(digest: string -> string, release: string, session: string, uid: string, order: string)
    returns (name: string)
    ensures name == WorkOrderSecretName(digest, release, session, uid, order)
  {
    var parts := [release, session, uid, order];
    var fed := "";
    for i := 0 to |parts|
      invariant fed == Encode(parts[..i])
    {
      assert parts[..i + 1][..i] == parts[..i];
      fed := fed + Digits(|parts[i]|) + ":" + parts[i];
      assert fed == Encode(parts[..i]) + Framed(parts[i]);
    }
    assert parts[..|parts|] == parts;
    var prefix := MakeReleasePrefix(release);
    return prefix + "wo" + "-" + digest(fed);
  }

  /** Two Secrets with equal names, of any two releases, have the same release, session,
      Sandbox uid and order, provided the digest does not collide on these two inputs. */
  lemma EqualSecretNames(digest: string -> string, a: seq<string>, b: seq<string>)
    requires |a| == |b| == 4
    requires |digest(Encode(a))| == |digest(Encode(b))| == DIGEST_LENGTH
    requires digest(Encode(a)) == digest(Encode(b)) ==> Encode(a) == Encode(b)
    requires WorkOrderSecretName(digest, a[0], a[1], a[2], a[3]) == WorkOrderSecretName(digest, b[0], b[1], b[2], b[3])
    ensures a == b
  {
    assert SecretParts(a[0], a[1], a[2], a[3]) == a && SecretParts(b[0], b[1], b[2], b[3]) == b;
    CancelSuffix(ReleasePrefix(a[0]) + "wo" + "-", digest(Encode(a)),
                 ReleasePrefix(b[0]) + "wo" + "-", digest(Encode(b)));
    EncodeInjective(a, b);
  }

  // ---- The names the protocol works with

  function NamesFor(digest: string -> string, fnv: string -> string, release: string): Names {
    Names(id => SandboxName(fnv, release, id),
          v => LabelValue(fnv, v),
          (session, uid, order) => WorkOrderSecretName(digest, release, session, uid, order))
  }

  /** With a digest that never collides, the protocol's assumption about Secret names
      holds. */
  lemma NamesForBehave(digest: string -> string, fnv: string -> string, release: string)
    requires forall x, y :: digest(x) == digest(y) ==> x == y
    ensures NamesFor(digest, fnv, release).SecretNamesInjective()
    ensures NamesFor(digest, fnv, release).SecretNamesNonEmpty()
  {
    var names := NamesFor(digest, fnv, release);
    forall s, u, o, s', u', o' | names.secret(s, u, o) == names.secret(s', u', o')
      ensures s == s' && u == u' && o == o'
    {
      var a, b := SecretParts(release, s, u, o), SecretParts(release, s', u', o');
      CancelPrefix(ReleasePrefix(release) + "wo" + "-", digest(Encode(a)), digest(Encode(b)));
      EncodeInjective(a, b);
      assert s == a[1] && u == a[2] && o == a[3] && s' == b[1] && u' == b[2] && o' == b[3];
    }
  }

  // ---- As many sessions as there are numbers of 26 digits

  function Power10(k: nat): (p: nat)
    ensures p > 0
  {
    if k == 0 then 1 else 10 * Power10(k - 1)
  }

  lemma {:induction false} FewDigits(n: nat, k: nat)
    requires 0 < k && n < Power10(k)
    ensures |Digits(n)| <= k
  {
    if n >= 10 {
      assert k > 1 && n / 10 < Power10(k - 1) by { assert Power10(1) == 10; }
      FewDigits(n / 10, k - 1);
    }
  }

  lemma DigitsAreClean(s: string)
    requires AllDigits(s)
    ensures Clean(s)
  {
  }

  const LONGEST_PLAIN_ID := 26

  /** Sessions that are numbers have names of their own. */
  lemma NumberedNames(fnv: string -> string, release: string, i: nat, j: nat)
    requires i < Power10(LONGEST_PLAIN_ID) && j < Power10(LONGEST_PLAIN_ID)
    requires SandboxName(fnv, release, Digits(i)) == SandboxName(fnv, release, Digits(j))
    ensures i == j
  {
    hide Digits, Clean, Power10, Sanitized, ReleasePrefix, SandboxName;
    ScopeIsClean(release);
    FewDigits(i, LONGEST_PLAIN_ID);
    FewDigits(j, LONGEST_PLAIN_ID);
    DigitsAreClean(Digits(i));
    DigitsAreClean(Digits(j));
    PlainName(fnv, release, Digits(i));
    PlainName(fnv, release, Digits(j));
    CancelPrefix(Scope(release), Digits(i), Digits(j));
    DigitsTell(i, j);
  }
}
