/**
 * Shared value types and string helpers used by every other module:
 * optional values and error results, the three flavours of whitespace
 * trimming (Go, PHP, JavaScript), splitting and joining, Go's
 * strings.Fields, decimal and hexadecimal rendering.
 */
module Text {

  datatype Option<T> = None | Some(value: T)

  datatype Result<T> = Ok(value: T) | Err(error: string)

  /** A decoded JSON or PHP scalar as it arrives in a request body or a database row. */
  datatype Scalar = Null | Bool(b: bool) | Int(i: int) | Str(s: string)

  /** HTTP reply of a handler: status code and the error text (empty on success). */
  datatype Reply = Reply(code: int, error: string)

  const OK: Reply := Reply(200, "")

  /** The reply of a handler whose database connection or statement failed. */
  const DatabaseError: Reply := Reply(500, "Database error")

  // ---------------------------------------------------------------- characters

  /** Go's unicode.IsSpace: ASCII white space, NEL, NBSP and the Unicode White_Space runes. */
  predicate IsGoSpace(c: char) {
    c == ' ' || c == '\t' || c == '\n' || c == '\r' || c == '\U{000B}' || c == '\U{000C}'
    || c == '\U{0085}' || c == '\U{00A0}' || c == '\U{1680}'
    || ('\U{2000}' <= c <= '\U{200A}')
    || c == '\U{2028}' || c == '\U{2029}' || c == '\U{202F}' || c == '\U{205F}' || c == '\U{3000}'
  }

  /** The characters PHP's trim() removes by default: " \t\n\r\0\x0B". */
  predicate IsPhpSpace(c: char) {
    c == ' ' || c == '\t' || c == '\n' || c == '\r' || c == '\0' || c == '\U{000B}'
  }

  /** ECMAScript WhiteSpace and LineTerminator, the set String.prototype.trim removes. */
  predicate IsJsSpace(c: char) {
    c == ' ' || c == '\t' || c == '\n' || c == '\r' || c == '\U{000B}' || c == '\U{000C}'
    || c == '\U{00A0}' || c == '\U{1680}' || ('\U{2000}' <= c <= '\U{200A}')
    || c == '\U{2028}' || c == '\U{2029}' || c == '\U{202F}' || c == '\U{205F}'
    || c == '\U{3000}' || c == '\U{FEFF}'
  }

  predicate IsDigit(c: char) { '0' <= c <= '9' }

  predicate IsAsciiLetter(c: char) { 'a' <= c <= 'z' || 'A' <= c <= 'Z' }

  function LowerChar(c: char): (r: char)
    ensures 'A' <= c <= 'Z' ==> 'a' <= r <= 'z'
    ensures !('A' <= c <= 'Z') ==> r == c
  {
    if 'A' <= c <= 'Z' then (c as int + 32) as char else c
  }

  /** ASCII lower-casing (PHP strtolower in a non-multibyte locale). */
  function ToLower(s: string): (r: string)
    ensures |r| == |s|
    ensures forall i :: 0 <= i < |s| ==> r[i] == LowerChar(s[i])
  {
    if s == [] then [] else [LowerChar(s[0])] + ToLower(s[1..])
  }

  /** Case-insensitive equality on ASCII letters. */
  predicate EqualFold(a: string, b: string) {
    |a| == |b| && forall i :: 0 <= i < |a| ==> LowerChar(a[i]) == LowerChar(b[i])
  }

  // ---------------------------------------------------------------- trimming

  /** Whose notion of white space a trim uses. */
  datatype Space = GoSpace | PhpSpace | JsSpace

  predicate IsSpace(kind: Space, c: char) {
    match kind
    case GoSpace => IsGoSpace(c)
    case PhpSpace => IsPhpSpace(c)
    case JsSpace => IsJsSpace(c)
  }

  /** Drops the leading white space. */
  function TrimLeft(s: string, kind: Space): (r: string)
    ensures |r| <= |s|
    decreases |s|
  {
    if s != [] && IsSpace(kind, s[0]) then TrimLeft(s[1..], kind) else s
  }

  /** Drops the trailing white space. */
  function TrimRight(s: string, kind: Space): (r: string)
    ensures |r| <= |s|
    decreases |s|
  {
    if s != [] && IsSpace(kind, s[|s| - 1]) then TrimRight(s[..|s| - 1], kind) else s
  }

  function Trim(s: string, kind: Space): (r: string)
    ensures |r| <= |s|
  {
    TrimRight(TrimLeft(s, kind), kind)
  }

  /** strings.TrimSpace */
  function GoTrim(s: string): string { Trim(s, GoSpace) }

  /** PHP trim() with the default character list. */
  function PhpTrim(s: string): string { Trim(s, PhpSpace) }

  /** JavaScript String.prototype.trim */
  function JsTrim(s: string): string { Trim(s, JsSpace) }

  /** Go strings.Trim(s, cutset) for an explicit cut set. */
  function TrimChars(s: string, cutset: set<char>): (r: string)
    ensures |r| <= |s|
    ensures r != [] ==> r[0] !in cutset && r[|r| - 1] !in cutset
    ensures s != [] && s[0] !in cutset && s[|s| - 1] !in cutset ==> r == s
    decreases |s|
  {
    if s != [] && s[0] in cutset then TrimChars(s[1..], cutset)
    else if s != [] && s[|s| - 1] in cutset then TrimChars(s[..|s| - 1], cutset)
    else s
  }

  // ---------------------------------------------------------------- prefixes and substrings

  predicate HasPrefix(s: string, p: string) { p <= s }

  predicate HasSuffix(s: string, p: string) { |p| <= |s| && s[|s| - |p|..] == p }

  /** strings.Contains / strpos(...) !== false */
  predicate Contains(s: string, t: string)
    decreases |s|
  {
    t <= s || (s != [] && Contains(s[1..], t))
  }

  lemma {:induction false} ContainsAt(s: string, t: string, i: nat)
    requires i + |t| <= |s| && s[i..i + |t|] == t
    ensures Contains(s, t)
    decreases i
  {
    if i > 0 {
      assert s[1..][i - 1..i - 1 + |t|] == s[i..i + |t|];
      ContainsAt(s[1..], t, i - 1);
    } else {
      assert t <= s;
    }
  }

  /** A text contains itself. */
  lemma ContainsSelf(t: string)
    ensures Contains(t, t)
  {
    ContainsAt(t, t, 0);
  }

  /** What the right part of a concatenation contains, the whole contains. */
  lemma {:induction false} ContainsRight(a: string, b: string, t: string)
    requires Contains(b, t)
    ensures Contains(a + b, t)
    decreases |a|
  {
    if a != [] {
      ContainsRight(a[1..], b, t);
      assert (a + b)[1..] == a[1..] + b;
    } else {
      assert a + b == b;
    }
  }

  /** What the left part of a concatenation contains, the whole contains. */
  lemma {:induction false} ContainsLeft(a: string, b: string, t: string)
    requires Contains(a, t)
    ensures Contains(a + b, t)
    decreases |a|
  {
    if t <= a {
      assert t <= a + b;
    } else {
      ContainsLeft(a[1..], b, t);
      assert (a + b)[1..] == a[1..] + b;
    }
  }

  /** A joined text contains each of its parts. */
  lemma {:induction false} ContainsJoinPart(parts: seq<string>, sep: string, k: nat)
    requires k < |parts|
    ensures Contains(Join(parts, sep), parts[k])
    decreases |parts|
  {
    if |parts| == 1 {
      ContainsSelf(parts[0]);
    } else if k == 0 {
      ContainsSelf(parts[0]);
      ContainsLeft(parts[0], sep + Join(parts[1..], sep), parts[0]);
      assert parts[0] + sep + Join(parts[1..], sep) == parts[0] + (sep + Join(parts[1..], sep));
    } else {
      ContainsJoinPart(parts[1..], sep, k - 1);
      ContainsRight(parts[0] + sep, Join(parts[1..], sep), parts[k]);
    }
  }

  /** strings.TrimSuffix */
  function TrimSuffix(s: string, suffix: string): (r: string)
    ensures HasSuffix(s, suffix) ==> r + suffix == s
    ensures !HasSuffix(s, suffix) ==> r == s
  {
    if HasSuffix(s, suffix) then s[..|s| - |suffix|] else s
  }

  /** strings.TrimPrefix */
  function TrimPrefix(s: string, prefix: string): (r: string)
    ensures prefix <= s ==> prefix + r == s
    ensures !(prefix <= s) ==> r == s
  {
    if prefix <= s then s[|prefix|..] else s
  }

  /** Index of the first occurrence of c, or -1 (strings.IndexByte). */
  function IndexOf(s: string, c: char): (k: int)
    ensures -1 <= k < |s|
    ensures k == -1 <==> c !in s
    ensures 0 <= k ==> s[k] == c && c !in s[..k]
  {
    if s == [] then -1
    else if s[0] == c then 0
    else
      var k := IndexOf(s[1..], c);
      assert s[1..][..if k < 0 then 0 else k] == s[1..if k < 0 then 1 else k + 1];
      if k < 0 then -1 else k + 1
  }

  /** Index of the last occurrence of c, or -1 (strings.LastIndex with a one-character separator). */
  function LastIndexOf(s: string, c: char): (k: int)
    ensures -1 <= k < |s|
    ensures k == -1 ==> forall j :: 0 <= j < |s| ==> s[j] != c
    ensures 0 <= k ==> s[k] == c && forall j :: k < j < |s| ==> s[j] != c
    decreases |s|
  {
    if s == [] then -1
    else if s[|s| - 1] == c then |s| - 1
    else LastIndexOf(s[..|s| - 1], c)
  }

  /** basename(): the text after the last slash. */
  function Basename(path: string): (name: string)
    ensures |name| <= |path| && name == path[|path| - |name|..]
    ensures forall j :: 0 <= j < |name| ==> name[j] != '/'
  {
    path[LastIndexOf(path, '/') + 1..]
  }

  /** A c followed only by other characters is the last c. */
  lemma {:induction false} LastIndexOfAppend(a: string, c: char, b: string)
    requires c !in b
    ensures LastIndexOf(a + [c] + b, c) == |a|
    decreases |b|
  {
    var s := a + [c] + b;
    if b == [] {
      assert s[|s| - 1] == c;
    } else {
      var b' := b[..|b| - 1];
      assert s[|s| - 1] == b[|b| - 1];
      assert s[..|s| - 1] == a + [c] + b';
      LastIndexOfAppend(a, c, b');
    }
  }

  // ---------------------------------------------------------------- split and join

  /** strings.Join / implode */
  function Join(parts: seq<string>, sep: string): (r: string)
    ensures parts == [] ==> r == []
    ensures |parts| == 1 ==> r == parts[0]
  {
    if parts == [] then []
    else if |parts| == 1 then parts[0]
    else parts[0] + sep + Join(parts[1..], sep)
  }

  /** strings.Split / explode with a one-character separator. */
  function Split(s: string, c: char): (r: seq<string>)
    ensures |r| >= 1
    ensures forall i :: 0 <= i < |r| ==> c !in r[i]
    decreases |s|
  {
    if s == [] then [[]]
    else
      var rest := Split(s[1..], c);
      if s[0] == c then [[]] + rest else [[s[0]] + rest[0]] + rest[1..]
  }

  /** Splitting and joining again with the same separator gives back the input. */
  lemma {:induction false} JoinSplit(s: string, c: char)
    ensures Join(Split(s, c), [c]) == s
    decreases |s|
  {
    if s != [] {
      JoinSplit(s[1..], c);
      var rest := Split(s[1..], c);
      if s[0] != c {
        if |rest| > 1 {
          assert Join([[s[0]] + rest[0]] + rest[1..], [c])
              == [s[0]] + rest[0] + [c] + Join(rest[1..], [c]);
        }
      }
    }
  }

  /** A text free of the separator splits into exactly one part, itself. */
  lemma {:induction false} SplitNoSeparator(s: string, c: char)
    requires c !in s
    ensures Split(s, c) == [s]
    decreases |s|
  {
    if s != [] {
      assert c !in s[1..];
      SplitNoSeparator(s[1..], c);
      assert [s[0]] + s[1..] == s;
    }
  }

  /** A separator-free first part followed by the separator splits off as the first element. */
  lemma {:induction false} SplitFirstPart(a: string, c: char, b: string)
    requires c !in a
    ensures Split(a + [c] + b, c) == [a] + Split(b, c)
    decreases |a|
  {
    if a == [] {
      assert a + [c] + b == [c] + b;
      assert ([c] + b)[1..] == b;
    } else {
      assert (a + [c] + b)[1..] == a[1..] + [c] + b;
      SplitFirstPart(a[1..], c, b);
      assert [a[0]] + a[1..] == a;
    }
  }

  /** Joining separator-free parts and splitting again gives back the parts. */
  lemma {:induction false} SplitJoin(parts: seq<string>, c: char)
    requires |parts| >= 1
    requires forall i :: 0 <= i < |parts| ==> c !in parts[i]
    ensures Split(Join(parts, [c]), c) == parts
    decreases |parts|
  {
    if |parts| == 1 {
      SplitNoSeparator(parts[0], c);
    } else {
      SplitJoin(parts[1..], c);
      SplitFirstPart(parts[0], c, Join(parts[1..], [c]));
      assert [parts[0]] + parts[1..] == parts;
    }
  }

  // ---------------------------------------------------------------- line-oriented text

  /** Text made of the given lines, each ended by a newline. */
  function Lines(ls: seq<string>): string
    decreases |ls|
  {
    if ls == [] then [] else ls[0] + "\n" + Lines(ls[1..])
  }

  lemma {:induction false} LinesAppend(a: seq<string>, b: seq<string>)
    ensures Lines(a + b) == Lines(a) + Lines(b)
    decreases |a|
  {
    if a != [] {
      assert (a + b)[1..] == a[1..] + b;
      LinesAppend(a[1..], b);
    } else {
      assert a + b == b;
    }
  }

  /** Reading newline-free lines back: splitting on newlines gives the lines and a final empty part. */
  lemma {:induction false} SplitLines(ls: seq<string>)
    requires forall i :: 0 <= i < |ls| ==> '\n' !in ls[i]
    ensures Split(Lines(ls), '\n') == ls + [""]
    decreases |ls|
  {
    if ls != [] {
      SplitLines(ls[1..]);
      SplitFirstPart(ls[0], '\n', Lines(ls[1..]));
      assert [ls[0]] + (ls[1..] + [""]) == ls + [""];
    }
  }

  /** No occurrence of pat starts anywhere in s. */
  predicate Free(s: string, pat: string) {
    forall k :: 0 <= k <= |s| ==> !(pat <= s[k..])
  }

  /**
   * The pieces between the non-overlapping occurrences of pat found left to
   * right (strings.Split with a multi-character separator).
   */
  function SplitOn(s: string, pat: string): (parts: seq<string>)
    requires pat != []
    ensures |parts| >= 1 && parts[0] <= s
    decreases |s|
  {
    if s == [] then [[]]
    else if pat <= s then [[]] + SplitOn(s[|pat|..], pat)
    else
      var rest := SplitOn(s[1..], pat);
      [[s[0]] + rest[0]] + rest[1..]
  }

  /** strings.ReplaceAll: every occurrence found left to right is replaced. */
  function ReplaceAll(s: string, pat: string, rep: string): string
    requires pat != []
  {
    Join(SplitOn(s, pat), rep)
  }

  /** Joining the pieces with the pattern gives back the text. */
  lemma {:induction false} JoinSplitOn(s: string, pat: string)
    requires pat != []
    ensures Join(SplitOn(s, pat), pat) == s
    decreases |s|
  {
    if s != [] {
      if pat <= s {
        var tail := s[|pat|..];
        JoinSplitOn(tail, pat);
        JoinAfterEmpty(SplitOn(tail, pat), pat);
        assert s == pat + tail;
      } else {
        JoinSplitOn(s[1..], pat);
        JoinExtendFirst(s[0], SplitOn(s[1..], pat), pat);
        assert [s[0]] + s[1..] == s;
      }
    }
  }

  /** Extending the first piece by one character extends the joined text by it. */
  lemma JoinExtendFirst(c: char, rest: seq<string>, sep: string)
    requires |rest| >= 1
    ensures Join([[c] + rest[0]] + rest[1..], sep) == [c] + Join(rest, sep)
  {
    if |rest| > 1 {
      assert ([[c] + rest[0]] + rest[1..])[1..] == rest[1..];
    }
  }

  /** An empty first piece contributes only the separator. */
  lemma JoinAfterEmpty(rest: seq<string>, sep: string)
    requires |rest| >= 1
    ensures Join([[]] + rest, sep) == sep + Join(rest, sep)
  {
    assert ([[]] + rest)[1..] == rest;
  }

  /** No piece contains the pattern, so the replacement leaves none of the original occurrences. */
  lemma {:induction false} SplitOnFree(s: string, pat: string)
    requires pat != []
    ensures forall i :: 0 <= i < |SplitOn(s, pat)| ==> Free(SplitOn(s, pat)[i], pat)
    decreases |s|
  {
    if s != [] {
      var parts := SplitOn(s, pat);
      if pat <= s {
        SplitOnFree(s[|pat|..], pat);
        var rest := SplitOn(s[|pat|..], pat);
        assert parts == [[]] + rest;
        assert Free([], pat);
        assert forall i :: 0 < i < |parts| ==> parts[i] == rest[i - 1];
      } else {
        SplitOnFree(s[1..], pat);
        var rest := SplitOn(s[1..], pat);
        var first := [s[0]] + rest[0];
        assert parts == [first] + rest[1..];
        assert Free(first, pat) by {
          forall k | 0 <= k <= |first| ensures !(pat <= first[k..]) {
            if k == 0 {
              assert first <= s;
            } else {
              assert first[k..] == rest[0][k - 1..];
            }
          }
        }
        assert forall i :: 0 < i < |parts| ==> parts[i] == rest[i];
      }
    }
  }

  lemma {:induction false} SplitOnAbsent(s: string, pat: string)
    requires pat != [] && Free(s, pat)
    ensures SplitOn(s, pat) == [s]
    decreases |s|
  {
    if s != [] {
      assert s[0..] == s;
      assert Free(s[1..], pat) by {
        forall k | 0 <= k <= |s[1..]| ensures !(pat <= s[1..][k..]) {
          assert s[1..][k..] == s[k + 1..];
        }
      }
      SplitOnAbsent(s[1..], pat);
      assert [s[0]] + s[1..] == s;
    }
  }

  /** A text without the pattern is left as it is. */
  lemma ReplaceAllAbsent(s: string, pat: string, rep: string)
    requires pat != [] && Free(s, pat)
    ensures ReplaceAll(s, pat, rep) == s
  {
    SplitOnAbsent(s, pat);
  }

  /** A suffix is its first element followed by the next suffix. */
  lemma SliceCons<T>(s: seq<T>, i: nat)
    requires i < |s|
    ensures s[i..] == [s[i]] + s[i + 1..]
  {
  }

  lemma AppendAssoc<T>(a: seq<T>, b: seq<T>, c: seq<T>)
    ensures (a + b) + c == a + (b + c)
  {
  }

  /** Two single appends are one append of a pair. */
  lemma SnocTwo<T>(a: seq<T>, x: T, y: T)
    ensures a + [x] + [y] == a + [x, y]
  {
  }

  /** The prefix of one more element, cut back by one, is the shorter prefix. */
  lemma TakeTake<T>(s: seq<T>, i: nat)
    requires i < |s|
    ensures s[..i + 1][..i] == s[..i] && s[..i + 1][i] == s[i]
  {
  }

  /** Appending nothing changes nothing. */
  lemma AppendEmpty<T>(a: seq<T>)
    ensures a + [] == a
  {
  }

  /** Extending a slice by one element on the right. */
  lemma SliceSnoc<T>(s: seq<T>, a: nat, b: nat)
    requires a <= b < |s|
    ensures s[a..b + 1] == s[a..b] + [s[b]]
  {
  }

  /** The characters before the first white space. */
  function TakeWhileNot(s: string, kind: Space): (r: string)
    ensures r <= s
    ensures |r| < |s| ==> IsSpace(kind, s[|r|])
    decreases |s|
  {
    if s == [] || IsSpace(kind, s[0]) then [] else [s[0]] + TakeWhileNot(s[1..], kind)
  }

  /** The maximal runs of non-white-space characters, in order. */
  function Words(s: string, kind: Space): (r: seq<string>)
    ensures forall i :: 0 <= i < |r| ==> r[i] != []
    decreases |s|
  {
    if s == [] then []
    else if IsSpace(kind, s[0]) then Words(s[1..], kind)
    else
      var w := TakeWhileNot(s, kind);
      assert w != [];
      [w] + Words(s[|w|..], kind)
  }

  /** strings.Fields: the maximal runs of non-space characters. */
  function Fields(s: string): (r: seq<string>)
    ensures forall i :: 0 <= i < |r| ==> r[i] != []
  {
    Words(s, GoSpace)
  }

  /** The run before the first white space holds none. */
  lemma {:induction false} TakeWhileNotSpaceFree(s: string, kind: Space)
    ensures forall j :: 0 <= j < |TakeWhileNot(s, kind)| ==> !IsSpace(kind, TakeWhileNot(s, kind)[j])
    decreases |s|
  {
    if s != [] && !IsSpace(kind, s[0]) {
      TakeWhileNotSpaceFree(s[1..], kind);
    }
  }

  /** No word holds white space. */
  lemma {:induction false} WordsSpaceFree(s: string, kind: Space)
    ensures var r := Words(s, kind);
      forall i, j :: 0 <= i < |r| && 0 <= j < |r[i]| ==> !IsSpace(kind, r[i][j])
    decreases |s|
  {
    if s != [] {
      if IsSpace(kind, s[0]) {
        WordsSpaceFree(s[1..], kind);
        assert Words(s, kind) == Words(s[1..], kind);
      } else {
        var w := TakeWhileNot(s, kind);
        TakeWhileNotSpaceFree(s, kind);
        WordsSpaceFree(s[|w|..], kind);
        assert Words(s, kind) == [w] + Words(s[|w|..], kind);
      }
    }
  }

  /** A word without white space is read to its end. */
  lemma {:induction false} TakeWord(w: string, kind: Space, rest: string)
    requires forall i :: 0 <= i < |w| ==> !IsSpace(kind, w[i])
    requires rest == [] || IsSpace(kind, rest[0])
    ensures TakeWhileNot(w + rest, kind) == w
    decreases |w|
  {
    if w != [] {
      assert (w + rest)[1..] == w[1..] + rest;
      TakeWord(w[1..], kind, rest);
    }
  }

  /** A space-free word followed by a blank and more text is the first field. */
  lemma FieldsCons(w: string, rest: string)
    requires w != [] && forall i :: 0 <= i < |w| ==> !IsGoSpace(w[i])
    ensures Fields(w + " " + rest) == [w] + Fields(rest)
  {
    var s := w + " " + rest;
    TakeWord(w, GoSpace, " " + rest);
    assert s == w + (" " + rest);
    assert s[|w|..] == " " + rest;
    assert (" " + rest)[1..] == rest;
    assert s[0] == w[0] && !IsSpace(GoSpace, s[0]);
    assert Words(" " + rest, GoSpace) == Words(rest, GoSpace);
    assert Words(s, GoSpace) == [w] + Words(s[|w|..], GoSpace);
  }

  /** A single space-free word is its only field. */
  lemma FieldsSingle(w: string)
    requires w != [] && forall i :: 0 <= i < |w| ==> !IsGoSpace(w[i])
    ensures Fields(w) == [w]
  {
    TakeWord(w, GoSpace, []);
    assert w + [] == w;
    assert !IsSpace(GoSpace, w[0]);
    assert w[|w|..] == [];
    assert Words(w, GoSpace) == [w] + Words(w[|w|..], GoSpace);
  }

  /** Words without white space joined by single blanks are read back as the same words. */
  lemma {:induction false} FieldsJoin(words: seq<string>)
    requires forall k :: 0 <= k < |words| ==> words[k] != [] && forall i :: 0 <= i < |words[k]| ==> !IsGoSpace(words[k][i])
    ensures Fields(Join(words, " ")) == words
    decreases |words|
  {
    if |words| == 1 {
      FieldsSingle(words[0]);
    } else if |words| > 1 {
      FieldsJoin(words[1..]);
      FieldsCons(words[0], Join(words[1..], " "));
      assert [words[0]] + words[1..] == words;
    } else {
      assert Join(words, " ") == [];
    }
  }

  // ---------------------------------------------------------------- numbers as text

  function DigitChar(d: nat): (c: char)
    requires d < 10
    ensures IsDigit(c)
  {
    ('0' as int + d) as char
  }

  /** Decimal rendering of a natural number (Go %d, PHP string interpolation). */
  function NatToString(n: nat): (r: string)
    ensures r != []
    ensures forall i :: 0 <= i < |r| ==> IsDigit(r[i])
    ensures r[0] == '0' ==> n == 0 && r == "0"
  {
    if n < 10 then [DigitChar(n)] else NatToString(n / 10) + [DigitChar(n % 10)]
  }

  function IntToString(i: int): (r: string)
    ensures r != []
    ensures i < 0 <==> r[0] == '-'
  {
    if i < 0 then "-" + NatToString(-i) else NatToString(i)
  }

  /** Value of a string of decimal digits. */
  function DigitsValue(s: string): nat
    requires forall i :: 0 <= i < |s| ==> IsDigit(s[i])
  {
    if s == [] then 0
    else
      assert IsDigit(s[|s| - 1]);
      DigitsValue(s[..|s| - 1]) * 10 + (s[|s| - 1] as int - '0' as int)
  }

  /** Reading back a rendered number gives the number. */
  lemma {:induction false} DigitsValueOfNatToString(n: nat)
    ensures DigitsValue(NatToString(n)) == n
  {
    if n >= 10 {
      DigitsValueOfNatToString(n / 10);
      var r := NatToString(n);
      assert r[..|r| - 1] == NatToString(n / 10);
    }
  }

  /** A string that is non-empty and all digits (ctype_digit, is_numeric on plain integers). */
  predicate IsDecimal(s: string) {
    s != [] && forall i :: 0 <= i < |s| ==> IsDigit(s[i])
  }

  /**
   * strconv.Atoi restricted to what the model needs: an optional sign
   * followed by decimal digits; anything else fails and yields 0.
   */
  function Atoi(s: string): (r: Option<int>)
    ensures IsDecimal(s) ==> r == Some(DigitsValue(s))
    ensures s == [] ==> r == None
  {
    if IsDecimal(s) then Some(DigitsValue(s))
    else if |s| >= 2 && s[0] == '-' && IsDecimal(s[1..]) then
      var v: int := DigitsValue(s[1..]);
      Some(-v)
    else if |s| >= 2 && s[0] == '+' && IsDecimal(s[1..]) then Some(DigitsValue(s[1..]))
    else None
  }

  /** strconv.ParseInt with the error ignored: 0 when the text is not a number. */
  function ParseOrZero(s: string): int {
    match Atoi(s)
    case Some(v) => v
    case None => 0
  }

  function HexDigit(d: nat): (c: char)
    requires d < 16
  {
    if d < 10 then DigitChar(d) else ('a' as int + d - 10) as char
  }

  /** Lower-case hexadecimal digits of n, no padding. */
  function HexString(n: nat): (r: string)
    ensures r != []
  {
    if n < 16 then [HexDigit(n)] else HexString(n / 16) + [HexDigit(n % 16)]
  }

  function Repeat(c: char, k: nat): (r: string)
    ensures |r| == k && forall i :: 0 <= i < k ==> r[i] == c
  {
    if k == 0 then [] else [c] + Repeat(c, k - 1)
  }

  /** Printf's %0<width>x: left-pad with zeros to at least width digits. */
  function HexPad(n: nat, width: nat): (r: string)
    ensures |r| >= width && |r| >= |HexString(n)|
    ensures |HexString(n)| <= width ==> |r| == width
    ensures r[|r| - |HexString(n)|..] == HexString(n)
  {
    var h := HexString(n);
    if |h| >= width then h else Repeat('0', width - |h|) + h
  }

  function Pow16(k: nat): (r: nat)
    ensures r >= 1
  {
    if k == 0 then 1 else 16 * Pow16(k - 1)
  }

  /** A number below 16^k needs at most k hexadecimal digits, so %0<k>x prints exactly k. */
  lemma {:induction false} HexWidth(n: nat, k: nat)
    requires n < Pow16(k) && k >= 1
    ensures |HexString(n)| <= k && |HexPad(n, k)| == k
  {
    if n >= 16 {
      assert k >= 2;
      assert n / 16 < Pow16(k - 1);
      HexWidth(n / 16, k - 1);
    }
  }

  /** A four-digit hexadecimal number is printed as exactly four digits, led by n / 4096. */
  lemma HexFourDigits(n: nat)
    requires 4096 <= n < 65536
    ensures |HexString(n)| == 4 && HexPad(n, 4) == HexString(n)
    ensures HexString(n)[0] == HexDigit(n / 4096)
  {
    assert HexString(n / 4096) == [HexDigit(n / 4096)];
    assert n / 16 / 16 / 16 == n / 4096;
    assert HexString(n / 16 / 16) == HexString(n / 16 / 16 / 16) + [HexDigit(n / 16 / 16 % 16)];
  }

  /** Go's truncated integer division, written out for negative operands. */
  function GoDiv(a: int, b: int): (q: int)
    requires b != 0
    ensures a >= 0 && b > 0 ==> q == a / b
  {
    if (a >= 0) == (b > 0) then (if a >= 0 then a else -a) / (if b > 0 then b else -b)
    else -((if a >= 0 then a else -a) / (if b > 0 then b else -b))
  }

  /** Go's truncated remainder: the sign follows the dividend. */
  function GoMod(a: int, b: int): (r: int)
    requires b != 0
    ensures a == GoDiv(a, b) * b + r
    ensures a >= 0 ==> 0 <= r
  {
    a - GoDiv(a, b) * b
  }

  function Max(a: int, b: int): (m: int)
    ensures m >= a && m >= b && (m == a || m == b)
  {
    if a >= b then a else b
  }

  function Min(a: int, b: int): (m: int)
    ensures m <= a && m <= b && (m == a || m == b)
  {
    if a <= b then a else b
  }

  // ---------------------------------------------------------------- PHP values

  /** PHP truthiness, which is also what `!empty()` tests: null, false, 0, "" and "0" are false. */
  predicate Truthy(v: Scalar) {
    match v
    case Null => false
    case Bool(b) => b
    case Int(i) => i != 0
    case Str(s) => s != "" && s != "0"
  }

  /** PHP's conversion to string, as in string interpolation. */
  function AsString(v: Scalar): string {
    match v
    case Null => ""
    case Bool(b) => if b then "1" else ""
    case Int(i) => IntToString(i)
    case Str(s) => s
  }

  // ---------------------------------------------------------------- capped lists

  /** The last `cap` elements of s, or all of s when it is shorter. */
  function Newest<T>(s: seq<T>, cap: nat): (r: seq<T>)
    ensures |r| == if |s| > cap then cap else |s|
    ensures r == s[|s| - |r|..]
  {
    if |s| > cap then s[|s| - cap..] else s
  }

  /** The first `cap` elements of s, or all of s when it is shorter. */
  function Truncate<T>(s: seq<T>, cap: nat): (r: seq<T>)
    ensures |r| == if |s| > cap then cap else |s|
    ensures r == s[..|r|]
  {
    if |s| > cap then s[..cap] else s
  }

  /**
   * Capping after every append keeps exactly the newest entries of the
   * whole history: a capped list never loses an entry it should have kept.
   */
  lemma NewestAppend<T>(s: seq<T>, x: T, cap: nat)
    requires cap > 0
    ensures Newest(Newest(s, cap) + [x], cap) == Newest(s + [x], cap)
  {
    var t := Newest(s, cap);
    if |t| + 1 > cap {
      assert |s| + 1 > cap;
      assert t + [x] == (s + [x])[|s| - |t|..];
    } else {
      assert t == s;
    }
  }

  // ---------------------------------------------------------------- upper case and prefixes

  function UpperChar(c: char): (r: char)
    ensures 'a' <= c <= 'z' ==> 'A' <= r <= 'Z'
    ensures !('a' <= c <= 'z') ==> r == c
  {
    if 'a' <= c <= 'z' then (c as int - 32) as char else c
  }

  /** ASCII upper-casing (PHP strtoupper). */
  function ToUpper(s: string): (r: string)
    ensures |r| == |s|
    ensures forall i :: 0 <= i < |s| ==> r[i] == UpperChar(s[i])
  {
    if s == [] then [] else [UpperChar(s[0])] + ToUpper(s[1..])
  }

  /** The number of occurrences of c in s. */
  function Count(s: string, c: char): (n: nat)
    ensures n <= |s|
    ensures c !in s ==> n == 0
  {
    if s == [] then 0 else (if s[0] == c then 1 else 0) + Count(s[1..], c)
  }

  lemma {:induction false} CountAppend(a: string, b: string, c: char)
    ensures Count(a + b, c) == Count(a, c) + Count(b, c)
  {
    if a == [] {
      assert a + b == b;
    } else {
      assert (a + b)[0] == a[0];
      assert (a + b)[1..] == a[1..] + b;
      CountAppend(a[1..], b, c);
    }
  }
}
