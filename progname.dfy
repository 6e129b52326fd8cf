/**
 * Program-name normalisation at the start of `f2fs_parse_options`
 * (src/main.c): every `_` of the program's base name becomes `.`, so that
 * `dump_f2fs` is recognised as `dump.f2fs`.
 */
module ProgName {

  /** One character as the loop leaves it. */
  function DotChar(ch: char): char {
    if ch == '_' then '.' else ch
  }

  /** The normalised program name. */
  function Dotted(s: string): (r: string)
    ensures |r| == |s|
  {
    if s == [] then [] else [DotChar(s[0])] + Dotted(s[1..])
  }

  /** Position k of the result is position k of the input, with `_` turned into `.`. */
  lemma {:induction false} DottedAt(s: string, k: nat)
    requires k < |s|
    ensures Dotted(s)[k] == (if s[k] == '_' then '.' else s[k])
  {
    if k > 0 {
      DottedAt(s[1..], k - 1);
    }
  }

  /** No underscore survives normalisation. */
  lemma NoUnderscoreLeft(s: string)
    ensures forall k :: 0 <= k < |s| ==> Dotted(s)[k] != '_'
  {
    forall k | 0 <= k < |s|
      ensures Dotted(s)[k] != '_'
    {
      DottedAt(s, k);
    }
  }

  /** Normalising a normalised name changes nothing. */
  lemma {:induction false} DottedIdempotent(s: string)
    ensures Dotted(Dotted(s)) == Dotted(s)
  {
    if s != [] {
      DottedIdempotent(s[1..]);
      assert Dotted(s)[1..] == Dotted(s[1..]);
    }
  }

  /** A name without underscores is left as it is. */
  lemma {:induction false} DottedFixesPlainNames(s: string)
    requires forall k :: 0 <= k < |s| ==> s[k] != '_'
    ensures Dotted(s) == s
  {
    if s != [] {
      DottedFixesPlainNames(s[1..]);
    }
  }

  /** The in-place loop over the name's characters. */
  method NormalizeProgName(prog: array<char>)
    modifies prog
    ensures prog[..] == Dotted(old(prog[..]))
  {
    var i := 0;
    while i < prog.Length
      invariant 0 <= i <= prog.Length
      invariant forall j :: 0 <= j < i ==> prog[j] == DotChar(old(prog[j]))
      invariant forall j :: i <= j < prog.Length ==> prog[j] == old(prog[j])
    {
      if prog[i] == '_' {
        prog[i] := '.';
      }
      i := i + 1;
    }
    ghost var was := old(prog[..]);
    forall k | 0 <= k < prog.Length
      ensures prog[..][k] == Dotted(was)[k]
    {
      DottedAt(was, k);
    }
  }
}
