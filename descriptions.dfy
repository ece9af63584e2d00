/**
 * The text rules of the tool-optimizer plugin: taking the first line of a
 * string (`s.split('\n')[0]`), the rule for a tool's description (with its
 * `||` fallback) and the rule for a parameter's description (without one).
 */
module Descriptions {
  import opened Values

  /** `s` starts with `p`. */
  predicate IsPrefix(p: string, s: string) {
    |p| <= |s| && s[..|p|] == p
  }

  /**
   * The first element of `s.split('\n')`: everything before the first
   * newline, or all of `s` when it has none.
   */
  function FirstLine(s: string): (r: string)
    ensures IsPrefix(r, s)
    ensures '\n' !in r
    ensures |r| == |s| || s[|r|] == '\n'
  {
    if s == [] then []
    else if s[0] == '\n' then []
    else [s[0]] + FirstLine(s[1..])
  }

  /** The three properties of FirstLine's contract determine it: no other string has them. */
  lemma FirstLineUnique(s: string, p: string)
    requires IsPrefix(p, s) && '\n' !in p && (|p| == |s| || s[|p|] == '\n')
    ensures p == FirstLine(s)
  {
  }

  /** A string without a newline is its own first line. */
  lemma FirstLineWithoutNewline(s: string)
    requires '\n' !in s
    ensures FirstLine(s) == s
  {
  }

  /** The first line of a first line is itself. */
  lemma FirstLineIdempotent(s: string)
    ensures FirstLine(FirstLine(s)) == FirstLine(s)
  {
  }

  /**
   * `description?.split('\n')[0] || description`: an absent description stays
   * absent; otherwise its first line, unless that line is empty (the
   * description is empty or starts with a newline), in which case the whole
   * description is kept.
   */
  function ToolDescription(d: Option<string>): (r: Option<string>)
    ensures d.None? <==> r.None?
    ensures d.Some? && d.value == "" ==> r == d
    ensures d.Some? && d.value != "" && d.value[0] == '\n' ==> r == d
    ensures d.Some? && d.value != "" && d.value[0] != '\n' ==>
              r.Some? && r.value != "" && IsPrefix(r.value, d.value) && '\n' !in r.value &&
              (|r.value| == |d.value| || d.value[|r.value|] == '\n')
  {
    match d
    case None => None
    case Some(s) =>
      var line := FirstLine(s);
      if line != "" then Some(line) else d
  }

  /** A tool description without a newline passes through unchanged. */
  lemma ToolDescriptionWithoutNewline(s: string)
    requires '\n' !in s
    ensures ToolDescription(Some(s)) == Some(s)
  {
    FirstLineWithoutNewline(s);
  }

  /** Applying the tool-description rule twice is the same as applying it once. */
  lemma ToolDescriptionIdempotent(d: Option<string>)
    ensures ToolDescription(ToolDescription(d)) == ToolDescription(d)
  {
    if d.Some? {
      var line := FirstLine(d.value);
      if line != "" { FirstLineIdempotent(d.value); }
    }
  }

  /**
   * `if (schema.description) schema.description = schema.description.split('\n')[0]`:
   * an absent or empty description is left alone; any other is cut to its
   * first line, which is empty when the description starts with a newline.
   */
  function ParamDescription(d: Option<string>): (r: Option<string>)
    ensures d.None? <==> r.None?
    ensures d.Some? && d.value == "" ==> r == d
    ensures d.Some? && d.value != "" && d.value[0] == '\n' ==> r == Some("")
    ensures d.Some? ==>
              IsPrefix(r.value, d.value) && '\n' !in r.value &&
              (|r.value| == |d.value| || d.value[|r.value|] == '\n')
  {
    match d
    case None => None
    case Some(s) => if s != "" then Some(FirstLine(s)) else d
  }

  /** A parameter description without a newline passes through unchanged. */
  lemma ParamDescriptionWithoutNewline(s: string)
    requires '\n' !in s
    ensures ParamDescription(Some(s)) == Some(s)
  {
    FirstLineWithoutNewline(s);
  }

  /** Applying the parameter-description rule twice is the same as applying it once. */
  lemma ParamDescriptionIdempotent(d: Option<string>)
    ensures ParamDescription(ParamDescription(d)) == ParamDescription(d)
  {
    if d.Some? && d.value != "" { FirstLineIdempotent(d.value); }
  }

  /**
   * The two rules disagree exactly on descriptions that start with a newline:
   * the tool rule falls back to the whole text, the parameter rule empties it.
   */
  lemma ToolAndParamRulesDiffer(d: Option<string>)
    ensures ToolDescription(d) != ParamDescription(d) <==>
              d.Some? && d.value != "" && d.value[0] == '\n'
  {
  }
}
