/** static/js/utils/utils.js: the language guess for a code block and the
    removal of Markdown code fences. */
module Utils {
  import opened Text

  // ---------------------------------------------------------------------
  // detectLanguage

  predicate LooksLikePython(code: string) {
    Contains(code, "def ") || (Contains(code, "import ") && Contains(code, ":") && !Contains(code, "{"))
  }

  predicate LooksLikeJava(code: string) {
    (Contains(code, "public class ") || Contains(code, "private class ")) && Contains(code, "public static void main")
  }

  predicate LooksLikeCpp(code: string) {
    Contains(code, "#include <") && (Contains(code, "std::") || Contains(code, "using namespace std;"))
  }

  predicate LooksLikeC(code: string) {
    Contains(code, "#include <") && Contains(code, "int main(") && !Contains(code, "class ") && !Contains(code, "std::")
  }

  predicate LooksLikeJavaScript(code: string) {
    Contains(code, "function ") || Contains(code, "const ") || Contains(code, "let ") || Contains(code, "var ")
    || Contains(code, "=>")
  }

  /** `detectLanguage`: the first test that passes names the language; the
      JavaScript test names the default, so it decides nothing. */
  function DetectLanguage(code: string): (language: string)
    ensures language in {"python", "java", "cpp", "c", "javascript"}
    ensures language == "python" <==> LooksLikePython(code)
    ensures language == "java" <==> !LooksLikePython(code) && LooksLikeJava(code)
    ensures language == "cpp" <==> !LooksLikePython(code) && !LooksLikeJava(code) && LooksLikeCpp(code)
    ensures language == "c" <==>
      !LooksLikePython(code) && !LooksLikeJava(code) && !LooksLikeCpp(code) && LooksLikeC(code)
    ensures language == "javascript" <==>
      !LooksLikePython(code) && !LooksLikeJava(code) && !LooksLikeCpp(code) && !LooksLikeC(code)
  {
    if LooksLikePython(code) then "python"
    else if LooksLikeJava(code) then "java"
    else if LooksLikeCpp(code) then "cpp"
    else if LooksLikeC(code) then "c"
    else if LooksLikeJavaScript(code) then "javascript"
    else "javascript"
  }

  /** Code detected as C uses no `std::`, and code detected as C++ always
      includes a header: the two tests never overlap. */
  lemma CAndCppApart(code: string)
    ensures DetectLanguage(code) == "c" ==> !Contains(code, "std::") && !Contains(code, "class ")
    ensures DetectLanguage(code) == "cpp" ==> Contains(code, "#include <")
    ensures Contains(code, "std::") ==> DetectLanguage(code) != "c"
  {
  }

  // ---------------------------------------------------------------------
  // cleanCodeMarkdown

  /** The regular expression class `\w`. */
  predicate IsWordChar(c: char) {
    'a' <= c <= 'z' || 'A' <= c <= 'Z' || '0' <= c <= '9' || c == '_'
  }

  /** The longest prefix of `s` made of word characters: what the greedy
      `\w*` takes. */
  function WordRun(s: string): (r: string)
    ensures StartsWith(s, r) && forall i :: 0 <= i < |r| ==> IsWordChar(r[i])
    ensures |r| < |s| ==> !IsWordChar(s[|r|])
  {
    if |s| > 0 && IsWordChar(s[0]) then [s[0]] + WordRun(s[1..]) else []
  }

  /** The length of the match at the start: `^```typescript\n` first, then
      `^```\w*\n`, which only matches when the word run is followed by a
      newline; 0 when neither matches. */
  function LeadLength(s: string): (n: nat)
    ensures n <= |s|
    ensures n > 0 ==> StartsWith(s, "```") && s[n - 1] == '\n'
  {
    if StartsWith(s, "```typescript\n") then 14
    else if StartsWith(s, "```") then
      var w := WordRun(s[3..]);
      if 3 + |w| < |s| && s[3 + |w|] == '\n' then 4 + |w| else 0
    else 0
  }

  /** `code.replace(/^```typescript\n|^```\w*\n|```$/g, "")`: without the
      `m` flag `^` and `$` only match at the ends of the input, so at most a
      leading fence line and a trailing fence that does not overlap it go. */
  function CleanCodeMarkdown(code: string): (r: string)
    ensures var i := LeadLength(code);
      r == code[i..] || (|code| - i >= 3 && r == code[i..|code| - 3])
    ensures LeadLength(code) == 0 && !EndsWith(code, "```") ==> r == code
  {
    var rest := code[LeadLength(code)..];
    if EndsWith(rest, "```") then rest[..|rest| - 3] else rest
  }

  /** The first alternative adds nothing: it matches exactly where the second
      matches the same text. */
  lemma TypescriptAlternativeSubsumed(s: string)
    requires StartsWith(s, "```typescript\n")
    ensures var w := WordRun(s[3..]);
      3 + |w| < |s| && s[3 + |w|] == '\n' && 4 + |w| == LeadLength(s)
  {
    var t := s[3..];
    assert t[..11] == "typescript\n";
    WordRunStopsAtNewline(t, 10);
  }

  /** The word run of a text whose first `n` characters are word characters
      followed by a newline is those `n` characters. */
  lemma {:induction false} WordRunStopsAtNewline(t: string, n: nat)
    requires n < |t| && t[n] == '\n' && forall i :: 0 <= i < n ==> IsWordChar(t[i])
    ensures |WordRun(t)| == n
  {
    if n > 0 {
      WordRunStopsAtNewline(t[1..], n - 1);
    }
  }

  /** A fenced block with a word-only language tag cleans to its body. */
  lemma CleansFencedBlock(w: string, body: string)
    requires forall i :: 0 <= i < |w| ==> IsWordChar(w[i])
    ensures CleanCodeMarkdown("```" + w + "\n" + body + "```") == body
  {
    var s := "```" + w + "\n" + body + "```";
    var t := s[3..];
    assert t == w + "\n" + body + "```";
    WordRunStopsAtNewline(t, |w|);
    assert LeadLength(s) == 4 + |w| by {
      if StartsWith(s, "```typescript\n") {
        TypescriptAlternativeSubsumed(s);
      }
    }
    assert s[4 + |w|..] == body + "```";
  }

  /** The output is a contiguous part of the input. */
  lemma CleanIsInfix(code: string)
    ensures exists i, j :: 0 <= i <= j <= |code| && CleanCodeMarkdown(code) == code[i..j]
  {
    var i := LeadLength(code);
    if CleanCodeMarkdown(code) == code[i..] {
      assert code[i..] == code[i..|code|];
    } else {
      assert CleanCodeMarkdown(code) == code[i..|code| - 3];
    }
  }

  /** An input without a fence comes back unchanged. */
  lemma NoFenceUnchanged(code: string)
    requires !Contains(code, "```")
    ensures CleanCodeMarkdown(code) == code
  {
    if StartsWith(code, "```") {
      assert ContainsAt(code, "```", 0);
    }
    if EndsWith(code, "```") {
      assert ContainsAt(code, "```", |code| - 3);
    }
  }

  /** Cleaning twice can remove more than cleaning once. */
  lemma NotIdempotent()
    ensures CleanCodeMarkdown("```\n```\n```") == "```\n"
    ensures CleanCodeMarkdown(CleanCodeMarkdown("```\n```\n```")) == ""
  {
    var s := "```\n```\n```";
    assert WordRun(s[3..]) == "";
    assert LeadLength(s) == 4;
    assert s[4..] == "```\n```";
    var once := "```\n";
    assert WordRun(once[3..]) == "";
    assert LeadLength(once) == 4;
  }
}
