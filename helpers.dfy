/** `get_pretty_name` (gpylint/helpers.py): a pylint checker name shown as
    a title. */
module Helpers {
  import opened PyRuntime

  /** `s.replace(old, new)` for single characters. */
  function ReplaceChar(s: string, from: char, to: char): (r: string)
    ensures |r| == |s|
    ensures forall i :: 0 <= i < |s| ==> r[i] == if s[i] == from then to else s[i]
  {
    seq(|s|, i requires 0 <= i < |s| => if s[i] == from then to else s[i])
  }

  /** `s.capitalize()`: the first character upper-cased, the rest lower-cased. */
  function Capitalize(s: string): (r: string)
    ensures |r| == |s|
    ensures forall i :: 0 <= i < |s| ==> r[i] == if i == 0 then Upper(s[0]) else Lower(s[i])
  {
    if s == [] then [] else [Upper(s[0])] + LowerStr(s[1..])
  }

  /** `get_pretty_name(name)`. */
  function PrettyName(name: string): string
  {
    Capitalize(ReplaceChar(name, '_', ' '))
  }

  /** The pretty name is as long as the name, has a space for every
      underscore and no underscore, an upper-case-free tail and a first
      character that is not a lower-case letter. */
  lemma PrettyNameShape(name: string)
    ensures var p := PrettyName(name);
            && |p| == |name|
            && '_' !in p
            && (forall i :: 0 <= i < |name| && name[i] == '_' ==> p[i] == ' ')
            && (|p| > 0 ==> !IsLower(p[0]))
            && (forall i :: 1 <= i < |p| ==> !IsUpper(p[i]))
  {
    var p := PrettyName(name);
    forall i | 0 <= i < |p|
      ensures p[i] != '_'
    {
      assert ReplaceChar(name, '_', ' ')[i] != '_';
    }
  }

  /** Apart from the underscores, the name is kept up to case: lowering
      both gives the same character at every position. */
  lemma PrettyNameKeepsLetters(name: string)
    ensures forall i :: 0 <= i < |name| && name[i] != '_' ==> Lower(PrettyName(name)[i]) == Lower(name[i])
  {
    forall i | 0 <= i < |name| && name[i] != '_'
      ensures Lower(PrettyName(name)[i]) == Lower(name[i])
    {
      if i == 0 {
        UpperLower(name[0]);
      }
    }
  }

  /** Upper-casing then lower-casing a character is lower-casing it. */
  lemma UpperLower(c: char)
    ensures Lower(Upper(c)) == Lower(c)
  {
  }

  /** Prettifying a pretty name changes nothing. */
  lemma PrettyNameIdempotent(name: string)
    ensures PrettyName(PrettyName(name)) == PrettyName(name)
  {
    var p := PrettyName(name);
    PrettyNameShape(name);
    assert ReplaceChar(p, '_', ' ') == p;
    forall i | 0 <= i < |p|
      ensures PrettyName(p)[i] == p[i]
    {
    }
  }
}
