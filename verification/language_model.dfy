/**
 * What the workflows see of the language-model client (src/base.py) and of the
 * agent wrappers around it: each agent call either yields the completion text
 * or raises an exception whose message the workflows may keep.
 */
module LanguageModel {

  datatype Option<+T> = None | Some(value: T)

  /** The result of one agent call: the completion, or the message of the exception it raised. */
  datatype Outcome = Ok(text: string) | Fail(detail: string)

  /**
   * An agent: a fixed prompt template and one completion request, seen as a
   * function of the string that the template embeds.  Once these functions are
   * fixed, every run of every workflow is determined.
   */
  type Agent = string -> Outcome

  /** A response dictionary whose values are strings or None. */
  type Dict = map<string, Option<string>>

  /** Python truthiness of a `str | None` value: None and "" are both false. */
  predicate Truthy(v: Option<string>)
    ensures Truthy(v) <==> v != None && v != Some("")
  {
    v.Some? && v.value != ""
  }

  /** How `str.format` renders a `str | None` argument into a prompt. */
  function Str(v: Option<string>): (s: string)
    ensures v == None ==> s == "None"
    ensures v.Some? ==> s == v.value
  {
    if v.Some? then v.value else "None"
  }

  /** The characters Python's `str.strip()` removes (those for which `str.isspace()` holds). */
  predicate IsSpace(c: char)
  {
    || '\t' <= c <= '\r'
    || '\U{1c}' <= c <= ' '
    || c == '\U{85}' || c == '\U{a0}' || c == '\U{1680}'
    || '\U{2000}' <= c <= '\U{200a}'
    || c == '\U{2028}' || c == '\U{2029}' || c == '\U{202f}' || c == '\U{205f}' || c == '\U{3000}'
  }

  predicate AllSpace(s: string)
  {
    forall k :: 0 <= k < |s| ==> IsSpace(s[k])
  }

  /** `s` with its leading whitespace removed (`str.lstrip()`). */
  function TrimStart(s: string): (r: string)
    ensures |r| <= |s|
  {
    if s != [] && IsSpace(s[0]) then TrimStart(s[1..]) else s
  }

  /** `s` with its trailing whitespace removed (`str.rstrip()`). */
  function TrimEnd(s: string): (r: string)
    ensures |r| <= |s|
  {
    if s != [] && IsSpace(s[|s| - 1]) then TrimEnd(s[..|s| - 1]) else s
  }

  /** Python's `s.strip()`. */
  function Strip(s: string): (r: string)
    ensures |r| <= |s|
  {
    TrimEnd(TrimStart(s))
  }

  /** `TrimStart` keeps a suffix of its input that does not start with whitespace, and removes only whitespace. */
  lemma {:induction false} TrimStartRemovesLeadingSpace(s: string)
    ensures var r := TrimStart(s);
      && |r| <= |s| && r == s[|s| - |r|..]
      && AllSpace(s[..|s| - |r|])
      && (r == [] || !IsSpace(r[0]))
    decreases |s|
  {
    if s != [] && IsSpace(s[0]) {
      TrimStartRemovesLeadingSpace(s[1..]);
      var r := TrimStart(s);
      assert s[..|s| - |r|] == [s[0]] + s[1..][..|s| - 1 - |r|];
    }
  }

  /** `TrimEnd` keeps a prefix of its input that does not end with whitespace, and removes only whitespace. */
  lemma {:induction false} TrimEndRemovesTrailingSpace(s: string)
    ensures var r := TrimEnd(s);
      && |r| <= |s| && r == s[..|r|]
      && AllSpace(s[|r|..])
      && (r == [] || !IsSpace(r[|r| - 1]))
    decreases |s|
  {
    if s != [] && IsSpace(s[|s| - 1]) {
      TrimEndRemovesTrailingSpace(s[..|s| - 1]);
      var r := TrimEnd(s);
      assert s[|r|..] == s[..|s| - 1][|r|..] + [s[|s| - 1]];
    }
  }

  /** The stripped label is no longer than the completion and has no whitespace at either end. */
  lemma StripRemovesSurroundingSpace(s: string)
    ensures var r := Strip(s);
      && |r| <= |s|
      && (r == [] || (!IsSpace(r[0]) && !IsSpace(r[|r| - 1])))
  {
    TrimStartRemovesLeadingSpace(s);
    TrimEndRemovesTrailingSpace(TrimStart(s));
  }

  /** Leading whitespace in front of a string that starts with a non-space is all `TrimStart` removes. */
  lemma {:induction false} TrimStartPadded(before: string, rest: string)
    requires AllSpace(before)
    requires rest == [] || !IsSpace(rest[0])
    ensures TrimStart(before + rest) == rest
    decreases |before|
  {
    if before == [] {
      assert before + rest == rest;
    } else {
      assert (before + rest)[0] == before[0];
      assert (before + rest)[1..] == before[1..] + rest;
      TrimStartPadded(before[1..], rest);
    }
  }

  /** Trailing whitespace behind a string that ends with a non-space is all `TrimEnd` removes. */
  lemma {:induction false} TrimEndPadded(rest: string, after: string)
    requires AllSpace(after)
    requires rest == [] || !IsSpace(rest[|rest| - 1])
    ensures TrimEnd(rest + after) == rest
    decreases |after|
  {
    if after == [] {
      assert rest + after == rest;
    } else {
      var s := rest + after;
      assert s[|s| - 1] == after[|after| - 1];
      assert s[..|s| - 1] == rest + after[..|after| - 1];
      TrimEndPadded(rest, after[..|after| - 1]);
    }
  }

  /**
   * Stripping removes exactly the surrounding whitespace: padding a label with
   * whitespace on either side does not change what `strip()` returns.
   */
  lemma StripPadded(before: string, core: string, after: string)
    requires AllSpace(before) && AllSpace(after)
    requires core == [] || (!IsSpace(core[0]) && !IsSpace(core[|core| - 1]))
    ensures Strip(before + core + after) == core
  {
    if core == [] {
      assert before + core + after == (before + after) + [];
      TrimStartPadded(before + after, []);
    } else {
      assert before + core + after == before + (core + after);
      assert (core + after)[0] == core[0];
      TrimStartPadded(before, core + after);
      TrimEndPadded(core, after);
    }
  }
}
