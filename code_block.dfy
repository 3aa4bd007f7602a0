/** The decision the markdown `code` renderer of index.tsx makes for each code
    element: `/language-(\w+)/.exec(className || '')` picks the language, and a
    matched element is syntax-highlighted with one trailing newline removed from
    its text (`replace(/\n$/, '')`); an unmatched one is rendered as it is.
 */
module CodeBlock {

  datatype Option<T> = None | Some(value: T)

  /** How a code element is rendered. */
  datatype CodeView =
    | Highlighted(language: string, code: string)
    | Plain(className: Option<string>, children: string)

  const Tag: string := "language-"

  /** JavaScript's `\w`: an ASCII letter, digit or underscore. */
  predicate IsWordChar(c: char)
  {
    'A' <= c <= 'Z' || 'a' <= c <= 'z' || '0' <= c <= '9' || c == '_'
  }

  /** `language-` followed by at least one word character starts at index `i`. */
  predicate TagAt(s: string, i: int)
  {
    0 <= i && i + |Tag| < |s| && s[i..i + |Tag|] == Tag && IsWordChar(s[i + |Tag|])
  }

  /** The longest run of word characters starting at index `j`, as `\w+` takes it. */
  function WordRun(s: string, j: nat): (w: string)
    requires j <= |s|
    ensures j + |w| <= |s| && w == s[j..j + |w|]
    ensures forall k :: 0 <= k < |w| ==> IsWordChar(w[k])
    ensures j + |w| == |s| || !IsWordChar(s[j + |w|])
    decreases |s| - j
  {
    if j < |s| && IsWordChar(s[j]) then [s[j]] + WordRun(s, j + 1) else []
  }

  /** The leftmost index at or after `from` where the pattern matches, scanning as
      the regular expression engine does. */
  function FirstTag(s: string, from: nat): (p: Option<nat>)
    requires from <= |s|
    ensures p.Some? ==> from <= p.value && TagAt(s, p.value)
    ensures p.Some? ==> forall i :: from <= i < p.value ==> !TagAt(s, i)
    ensures p.None? ==> forall i :: from <= i ==> !TagAt(s, i)
    decreases |s| - from
  {
    if from == |s| then None
    else if TagAt(s, from) then Some(from)
    else FirstTag(s, from + 1)
  }

  /** The captured group of `/language-(\w+)/` on `className`, if it matches. */
  function Language(className: string): (lang: Option<string>)
    ensures lang.Some? <==> exists i :: TagAt(className, i)
    ensures lang.Some? ==> lang.value != []
    ensures lang.Some? ==> forall k :: 0 <= k < |lang.value| ==> IsWordChar(lang.value[k])
  {
    match FirstTag(className, 0)
    case None => None
    case Some(p) => Some(WordRun(className, p + |Tag|))
  }

  /** The language is the maximal word-character run right after the leftmost
      `language-` that is followed by a word character. */
  lemma LanguageIsLeftmostMaximalRun(className: string, p: nat)
    requires TagAt(className, p)
    requires forall i :: 0 <= i < p ==> !TagAt(className, i)
    ensures Language(className).Some?
    ensures var lang := Language(className).value;
      var start := p + |Tag|;
      start + |lang| <= |className|
      && lang == className[start..start + |lang|]
      && (start + |lang| == |className| || !IsWordChar(className[start + |lang|]))
  {
  }

  /** `replace(/\n$/, '')`: removes exactly one final newline when there is one
      (`$` without the multiline flag matches only at the very end). */
  function StripFinalNewline(s: string): (r: string)
    ensures r <= s
    ensures |s| - |r| <= 1
    ensures |r| < |s| <==> (s != [] && s[|s| - 1] == '\n')
  {
    if s != [] && s[|s| - 1] == '\n' then s[..|s| - 1] else s
  }

  /** `className || ''`: an absent or empty class name is the empty string. */
  function ClassText(className: Option<string>): string
  {
    if className.Some? then className.value else ""
  }

  /** The `code` renderer: highlighted with the matched language and the stripped
      text exactly when the class name carries a language tag, otherwise the
      element unchanged. */
  function RenderCode(className: Option<string>, children: string): (v: CodeView)
    ensures v.Highlighted? <==> exists i :: TagAt(ClassText(className), i)
    ensures v.Highlighted? ==> Language(ClassText(className)) == Some(v.language)
    ensures v.Highlighted? ==>
      v.code + "\n" == children
      || (v.code == children && (children == [] || children[|children| - 1] != '\n'))
    ensures v.Plain? ==> v == Plain(className, children)
  {
    match Language(ClassText(className))
    case Some(lang) => Highlighted(lang, StripFinalNewline(children))
    case None => Plain(className, children)
  }

  /** A fenced block tagged `python` is highlighted as python without its final
      newline; a block without a tag is left as plain code. */
  lemma PythonBlockIsHighlighted()
    ensures RenderCode(Some("language-python"), "print(1)\n") == Highlighted("python", "print(1)")
    ensures RenderCode(None, "x = 1") == Plain(None, "x = 1")
  {
  }
}
