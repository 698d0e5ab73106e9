/**
 * The cleaning half of parseModelJSON (adaptiveQuiz/server.js:20-36): the text the
 * model returned is trimmed, stripped of code-fence markers when it starts with one,
 * and cut down to the span from its first '{' to its last '}', before it is handed
 * to JSON.parse.
 */
module ModelText {
  import opened Optional

  /**
   * The code points String.prototype.trim removes: the ECMAScript WhiteSpace
   * characters (tab, vertical tab, form feed, the byte order mark and every Unicode
   * space separator) and LineTerminator characters.
   */
  predicate IsSpace(c: char)
  {
    c == ' ' || c == '\t' || c == '\n' || c == '\r' || c == '\U{B}' || c == '\U{C}' ||
    c == '\U{A0}' || c == '\U{1680}' || ('\U{2000}' <= c <= '\U{200A}') ||
    c == '\U{2028}' || c == '\U{2029}' || c == '\U{202F}' || c == '\U{205F}' ||
    c == '\U{3000}' || c == '\U{FEFF}'
  }

  /** `s` without its leading whitespace: a suffix of `s` whose first character is not a space. */
  function TrimStart(s: string): (r: string)
    ensures |r| <= |s| && r == s[|s| - |r|..]
    ensures forall i :: 0 <= i < |s| - |r| ==> IsSpace(s[i])
    ensures r != [] ==> !IsSpace(r[0])
    decreases |s|
  {
    if s != [] && IsSpace(s[0]) then TrimStart(s[1..]) else s
  }

  /** `s` without its trailing whitespace: a prefix of `s` whose last character is not a space. */
  function TrimEnd(s: string): (r: string)
    ensures |r| <= |s| && r == s[..|r|]
    ensures forall i :: |r| <= i < |s| ==> IsSpace(s[i])
    ensures r != [] ==> !IsSpace(r[|r| - 1])
    decreases |s|
  {
    if s != [] && IsSpace(s[|s| - 1]) then TrimEnd(s[..|s| - 1]) else s
  }

  /** Number of leading spaces of `s`. */
  function Lead(s: string): (n: nat)
    ensures n <= |s|
  {
    |s| - |TrimStart(s)|
  }

  /**
   * String.prototype.trim: the part of `s` between its leading and its trailing
   * whitespace, beginning and ending with a character that is not a space.
   */
  function Trim(s: string): (r: string)
    ensures Lead(s) + |r| <= |s| && r == s[Lead(s)..Lead(s) + |r|]
    ensures forall i :: 0 <= i < Lead(s) ==> IsSpace(s[i])
    ensures forall i :: Lead(s) + |r| <= i < |s| ==> IsSpace(s[i])
    ensures r != [] ==> !IsSpace(r[0]) && !IsSpace(r[|r| - 1])
  {
    TrimEnd(TrimStart(s))
  }

  /** A text that neither starts nor ends with a space is its own trim. */
  lemma TrimUnchanged(s: string)
    requires s != [] ==> !IsSpace(s[0]) && !IsSpace(s[|s| - 1])
    ensures Trim(s) == s
  {
  }

  /** Trimming twice is trimming once. */
  lemma TrimIdempotent(s: string)
    ensures Trim(Trim(s)) == Trim(s)
  {
    TrimUnchanged(Trim(s));
  }

  /** ASCII upper-case letters to lower case, every other character unchanged. */
  function LowerAscii(c: char): (l: char)
    ensures 'A' <= c <= 'Z' ==> 'a' <= l <= 'z' && l as int == c as int + 32
    ensures !('A' <= c <= 'Z') ==> l == c
  {
    if 'A' <= c <= 'Z' then (c as int + 32) as char else c
  }

  /**
   * Whether the pattern `p` occurs in `s` at position `i`; with `ignoreCase`, letters
   * compare without regard to ASCII case, as a literal pattern under a regular
   * expression's `i` flag does.
   */
  predicate MatchesAt(s: string, p: string, i: nat, ignoreCase: bool)
  {
    i + |p| <= |s| &&
    forall j :: 0 <= j < |p| ==> if ignoreCase then LowerAscii(s[i + j]) == LowerAscii(p[j]) else s[i + j] == p[j]
  }

  /** The first position at or after `from` where `p` occurs in `s`. */
  function FindFrom(s: string, p: string, ignoreCase: bool, from: nat): (r: Option<nat>)
    ensures r.Some? ==> from <= r.value && MatchesAt(s, p, r.value, ignoreCase)
    ensures r.Some? ==> forall k :: from <= k < r.value ==> !MatchesAt(s, p, k, ignoreCase)
    ensures r.None? ==> forall k: nat :: from <= k ==> !MatchesAt(s, p, k, ignoreCase)
    decreases |s| - from
  {
    if from + |p| > |s| then None
    else if MatchesAt(s, p, from, ignoreCase) then Some(from)
    else FindFrom(s, p, ignoreCase, from + 1)
  }

  /** `s.replace(/p/i, "")`: the first case-insensitive occurrence of `p` removed, if any. */
  function RemoveFirstIgnoringCase(s: string, p: string): (r: string)
    ensures FindFrom(s, p, true, 0).None? ==> r == s
    ensures FindFrom(s, p, true, 0).Some? ==> |r| == |s| - |p|
    ensures FindFrom(s, p, true, 0).Some? ==>
      var i := FindFrom(s, p, true, 0).value; r[..i] == s[..i] && r[i..] == s[i + |p|..]
  {
    match FindFrom(s, p, true, 0)
    case None => s
    case Some(i) => s[..i] + s[i + |p|..]
  }

  const Fence: string := "```"

  /** No three backticks in a row anywhere in `s`. */
  predicate FenceFree(s: string)
  {
    forall i :: 0 <= i < |s| ==> !MatchesAt(s, Fence, i, false)
  }

  /** `s.replace(/```/g, "")`: every fence removed, scanning left to right without overlap. */
  function RemoveFences(s: string): (r: string)
    ensures |r| <= |s| && (|s| - |r|) % 3 == 0
    decreases |s|
  {
    if |s| >= 3 && s[..3] == Fence then RemoveFences(s[3..])
    else if s == [] then []
    else [s[0]] + RemoveFences(s[1..])
  }

  /** A character other than a backtick is never the start of a removed fence. */
  lemma RemoveFencesKeeps(s: string)
    requires s != [] && s[0] != '`'
    ensures RemoveFences(s) == [s[0]] + RemoveFences(s[1..])
  {
  }

  /** A fence occurrence at `i + 1` of `[c] + t` is one at `i` of `t`. */
  lemma MatchShifts(c: char, t: string, i: nat)
    requires MatchesAt([c] + t, Fence, i + 1, false)
    ensures MatchesAt(t, Fence, i, false)
  {
    forall j | 0 <= j < 3 ensures t[i + j] == Fence[j] {
      assert ([c] + t)[i + 1 + j] == t[i + j];
    }
  }

  /**
   * When `s` does not start with a fence, its first character and what the
   * replacement makes of the rest do not start with one either.
   */
  lemma HeadStartsNoFence(s: string)
    requires s != [] && !(|s| >= 3 && s[..3] == Fence)
    ensures !MatchesAt([s[0]] + RemoveFences(s[1..]), Fence, 0, false)
  {
    var r := [s[0]] + RemoveFences(s[1..]);
    if s[0] != '`' {
      assert r[0] != Fence[0];
    } else if |s| < 3 {
      assert |r| < 3;
    } else if s[1] != '`' {
      RemoveFencesKeeps(s[1..]);
      assert r[1] == s[1] && r[1] != Fence[1];
    } else {
      assert s[2] != '`' by { assert s[..3] != Fence; }
      assert s[1..][1] == s[2];
      assert RemoveFences(s[1..]) == [s[1]] + RemoveFences(s[2..]) by { assert s[1..][1..] == s[2..]; }
      RemoveFencesKeeps(s[2..]);
      assert r[2] == s[2] && r[2] != Fence[2];
    }
  }

  /**
   * After the global replacement no fence is left, even where removing one brings
   * backticks on either side of it together.
   */
  lemma {:induction false} RemoveFencesFenceFree(s: string)
    ensures FenceFree(RemoveFences(s))
    decreases |s|
  {
    if |s| >= 3 && s[..3] == Fence {
      RemoveFencesFenceFree(s[3..]);
    } else if s != [] {
      var t := RemoveFences(s[1..]);
      RemoveFencesFenceFree(s[1..]);
      var r := [s[0]] + t;
      assert RemoveFences(s) == r;
      forall i: nat ensures !MatchesAt(r, Fence, i, false) {
        if i == 0 {
          HeadStartsNoFence(s);
        } else if MatchesAt(r, Fence, i, false) {
          MatchShifts(s[0], t, i - 1);
        }
      }
    }
  }

  /** Any slice of a fence-free text is fence-free. */
  lemma FenceFreeSlice(s: string, a: nat, b: nat)
    requires FenceFree(s) && a <= b <= |s|
    ensures FenceFree(s[a..b])
  {
    forall i: nat ensures !MatchesAt(s[a..b], Fence, i, false) {
      if MatchesAt(s[a..b], Fence, i, false) {
        assert MatchesAt(s, Fence, a + i, false);
      }
    }
  }

  /** The characters of `s` that are not backticks, in order. */
  function NonBackticks(s: string): (r: string)
    ensures forall k :: 0 <= k < |r| ==> r[k] != '`'
    decreases |s|
  {
    if s == [] then []
    else if s[0] == '`' then NonBackticks(s[1..])
    else [s[0]] + NonBackticks(s[1..])
  }

  /** The global replacement deletes only backticks: every other character survives, in order. */
  lemma {:induction false} RemoveFencesKeepsText(s: string)
    ensures NonBackticks(RemoveFences(s)) == NonBackticks(s)
    decreases |s|
  {
    if |s| >= 3 && s[..3] == Fence {
      RemoveFencesKeepsText(s[3..]);
      assert s[1..][1..][1..] == s[3..];
      assert NonBackticks(s) == NonBackticks(s[3..]) by {
        assert s[0] == '`' && s[1..][0] == '`' && s[1..][1..][0] == '`';
        assert NonBackticks(s) == NonBackticks(s[1..]);
        assert NonBackticks(s[1..]) == NonBackticks(s[1..][1..]);
        assert NonBackticks(s[1..][1..]) == NonBackticks(s[1..][1..][1..]);
      }
    } else if s != [] {
      RemoveFencesKeepsText(s[1..]);
      var t := RemoveFences(s[1..]);
      assert ([s[0]] + t)[1..] == t;
    }
  }

  /** A text without a fence is left as it is by the global replacement. */
  lemma {:induction false} RemoveFencesFenceFreeUnchanged(s: string)
    requires FenceFree(s)
    ensures RemoveFences(s) == s
    decreases |s|
  {
    if s != [] {
      assert !(|s| >= 3 && s[..3] == Fence) by {
        if |s| >= 3 && s[..3] == Fence {
          assert MatchesAt(s, Fence, 0, false);
        }
      }
      FenceFreeSlice(s, 1, |s|);
      assert s[1..|s|] == s[1..];
      RemoveFencesFenceFreeUnchanged(s[1..]);
      assert [s[0]] + s[1..] == s;
    }
  }

  predicate StartsWith(s: string, p: string)
  {
    |p| <= |s| && s[..|p|] == p
  }


  /** Trimming a fence-free text leaves it fence-free. */
  lemma TrimFenceFree(s: string)
    requires FenceFree(s)
    ensures FenceFree(Trim(s))
  {
    FenceFreeSlice(s, Lead(s), Lead(s) + |Trim(s)|);
  }

  /**
   * The fence-stripping chain of server.js:24-27: the first "```json", then the first
   * "```javascript", then every remaining fence removed, then a trim. The result has no
   * fence and no whitespace at either end.
   */
  function StripFences(s: string): (r: string)
    ensures FenceFree(r)
    ensures r != [] ==> !IsSpace(r[0]) && !IsSpace(r[|r| - 1])
  {
    var removed := RemoveFirstIgnoringCase(RemoveFirstIgnoringCase(s, "```json"), "```javascript");
    RemoveFencesFenceFree(removed);
    TrimFenceFree(RemoveFences(removed));
    Trim(RemoveFences(removed))
  }

  /** server.js:21-28: trim, then strip fences only when the trimmed text starts with one. */
  function Unfenced(text: string): (r: string)
    ensures !StartsWith(Trim(text), Fence) ==> r == Trim(text)
    ensures StartsWith(Trim(text), Fence) ==> FenceFree(r) && (r != [] ==> !IsSpace(r[0]) && !IsSpace(r[|r| - 1]))
  {
    var t := Trim(text);
    if StartsWith(t, Fence) then StripFences(t) else t
  }

  /** `s.indexOf(c)`: the first position of `c`, or -1. */
  function IndexOf(s: string, c: char): (r: int)
    ensures -1 <= r < |s|
    ensures r == -1 <==> c !in s
    ensures r >= 0 ==> s[r] == c && forall i :: 0 <= i < r ==> s[i] != c
    decreases |s|
  {
    if s == [] then -1
    else if s[0] == c then 0
    else
      var k := IndexOf(s[1..], c);
      if k == -1 then -1 else k + 1
  }

  /** `s.lastIndexOf(c)`: the last position of `c`, or -1. */
  function LastIndexOf(s: string, c: char): (r: int)
    ensures -1 <= r < |s|
    ensures r == -1 <==> c !in s
    ensures r >= 0 ==> s[r] == c && forall i :: r < i < |s| ==> s[i] != c
    decreases |s|
  {
    if s == [] then -1
    else if s[|s| - 1] == c then |s| - 1
    else
      var k := LastIndexOf(s[..|s| - 1], c);
      assert c in s[..|s| - 1] <==> c in s by { assert s == s[..|s| - 1] + [s[|s| - 1]]; }
      k
  }

  /**
   * `r` is what the brace step of server.js:30-34 makes of `u`: `u` itself when a '{'
   * or a '}' is missing, the span from the first '{' to the last '}' when that '{'
   * comes first, and empty when the last '}' comes before the first '{'.
   */
  predicate BraceCut(u: string, r: string)
  {
    var first, last := IndexOf(u, '{'), LastIndexOf(u, '}');
    (first == -1 || last == -1 ==> r == u) &&
    (0 <= first < last ==> r == u[first..last + 1]) &&
    (0 <= last < first ==> r == [])
  }

  /**
   * server.js:30-34: when both a '{' and a '}' occur, keep `slice(first '{', last '}' + 1)`,
   * which is empty when the last '}' comes before the first '{'; otherwise keep the text.
   */
  function SliceBraces(s: string): (r: string)
    ensures BraceCut(s, r)
    ensures 0 <= IndexOf(s, '{') < LastIndexOf(s, '}') ==> |r| >= 2 && r[0] == '{' && r[|r| - 1] == '}'
  {
    var first := IndexOf(s, '{');
    var last := LastIndexOf(s, '}');
    if first != -1 && last != -1 then
      if first <= last then s[first..last + 1] else []
    else s
  }

  /** The string parseModelJSON hands to JSON.parse (server.js:20-36). */
  function Cleaned(text: string): (r: string)
    ensures BraceCut(Unfenced(text), r)
  {
    var u := Unfenced(text);
    SliceBraces(u)
  }

  /** A text that starts with '{' and ends with '}' is kept whole by the brace slice. */
  lemma SliceBracesWhole(s: string)
    requires |s| >= 2 && s[0] == '{' && s[|s| - 1] == '}'
    ensures SliceBraces(s) == s
  {
    assert '{' in s && '}' in s;
    assert IndexOf(s, '{') == 0;
    assert LastIndexOf(s, '}') == |s| - 1;
  }

  /** A reply that is already a bare object comes out of cleaning unchanged. */
  lemma BareObjectUnchanged(text: string)
    requires |text| >= 2 && text[0] == '{' && text[|text| - 1] == '}'
    ensures Cleaned(text) == text
  {
    TrimUnchanged(text);
    assert !StartsWith(text, Fence);
    SliceBracesWhole(text);
  }

  /** Removing the fences of a text with no backtick followed by one fence leaves the text. */
  lemma {:induction false} RemoveFencesBeforeClosing(u: string)
    requires '`' !in u
    ensures RemoveFences(u + Fence) == u
    decreases |u|
  {
    if u == [] {
      assert u + Fence == Fence;
      assert Fence[3..] == [];
    } else {
      assert (u + Fence)[1..] == u[1..] + Fence;
      RemoveFencesKeeps(u + Fence);
      RemoveFencesBeforeClosing(u[1..]);
    }
  }

  /** A case-insensitive match of a pattern that starts with a backtick starts at a backtick. */
  lemma MatchStartsWithBacktick(s: string, p: string, k: nat)
    requires |p| > 0 && p[0] == '`' && MatchesAt(s, p, k, true)
    ensures k < |s| && s[k] == '`'
  {
    assert LowerAscii(s[k + 0]) == LowerAscii(p[0]);
  }

  /** No case-insensitive "```javascript" in a text whose only backticks are its last three. */
  lemma NoJavascriptFence(inner: string)
    requires '`' !in inner
    ensures FindFrom(inner + Fence, "```javascript", true, 0).None?
  {
    var s := inner + Fence;
    var js := "```javascript";
    forall k: nat ensures !MatchesAt(s, js, k, true) {
      if MatchesAt(s, js, k, true) {
        MatchStartsWithBacktick(s, js, k);
        assert false;
      }
    }
  }

  /** A leading space is dropped by TrimStart. */
  lemma TrimStartSkips(c: char, x: string)
    requires IsSpace(c)
    ensures TrimStart([c] + x) == TrimStart(x)
  {
    assert ([c] + x)[1..] == x;
  }

  /** A trailing space is dropped by TrimEnd. */
  lemma TrimEndSkips(x: string, c: char)
    requires IsSpace(c)
    ensures TrimEnd(x + [c]) == TrimEnd(x)
  {
    assert (x + [c])[..|x|] == x;
  }

  /** Trimming a newline off either end of a brace-delimited object leaves the object. */
  lemma TrimNewlines(body: string)
    requires |body| >= 2 && body[0] == '{' && body[|body| - 1] == '}'
    ensures Trim("\n" + body + "\n") == body
  {
    assert "\n" + body + "\n" == ['\n'] + (body + ['\n']);
    TrimStartSkips('\n', body + ['\n']);
    assert TrimStart(body + ['\n']) == body + ['\n'];
    TrimEndSkips(body, '\n');
  }

  /** Stripping the fences of "```json", newline, object, newline, "```" leaves the object. */
  lemma StripWrapped(body: string)
    requires |body| >= 2 && body[0] == '{' && body[|body| - 1] == '}' && '`' !in body
    ensures StripFences("```json\n" + body + "\n```") == body
  {
    var text := "```json\n" + body + "\n```";
    var inner := "\n" + body + "\n";
    assert MatchesAt(text, "```json", 0, true);
    assert text[..0] + text[7..] == inner + Fence;
    assert RemoveFirstIgnoringCase(text, "```json") == inner + Fence;
    assert '`' !in inner;
    NoJavascriptFence(inner);
    RemoveFencesBeforeClosing(inner);
    TrimNewlines(body);
  }

  /**
   * A reply wrapped as "```json", newline, object, newline, "```" is cleaned to the
   * object itself, when the object holds no backtick.
   */
  lemma FencedObjectCleaned(body: string)
    requires |body| >= 2 && body[0] == '{' && body[|body| - 1] == '}' && '`' !in body
    ensures Cleaned("```json\n" + body + "\n```") == body
  {
    var text := "```json\n" + body + "\n```";
    TrimUnchanged(text);
    assert StartsWith(text, Fence);
    StripWrapped(body);
    assert Unfenced(text) == body;
    SliceBracesWhole(body);
  }
}
