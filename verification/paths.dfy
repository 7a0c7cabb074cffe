/** Path separator normalisation, `img.replace(/\\/g, '/')` in `createConcatFile`. */
module Paths {

  /** The character the global replace leaves in place of `c`. */
  function Slash(c: char): char
  {
    if c == '\\' then '/' else c
  }

  /** Every backslash of `p` becomes a forward slash; nothing else changes. */
  function NormalizeSeparators(p: string): (r: string)
    ensures |r| == |p|
    ensures forall i :: 0 <= i < |p| ==> (p[i] == '\\' ==> r[i] == '/')
    ensures forall i :: 0 <= i < |p| ==> (p[i] != '\\' ==> r[i] == p[i])
    ensures '\\' !in r
    decreases |p|
  {
    if p == [] then [] else [Slash(p[0])] + NormalizeSeparators(p[1..])
  }

  /** Normalising an already normalised path changes nothing. */
  lemma NormalizeIdempotent(p: string)
    ensures NormalizeSeparators(NormalizeSeparators(p)) == NormalizeSeparators(p)
  {
  }

  /** A path is left alone exactly when it holds no backslash. */
  lemma NormalizeFixedPoint(p: string)
    ensures NormalizeSeparators(p) == p <==> '\\' !in p
  {
  }

  /** Normalisation introduces no character other than `/`: any other character of the
      result was already in the input. */
  lemma NormalizeKeeps(p: string, c: char)
    requires c != '/'
    ensures c in NormalizeSeparators(p) ==> c in p
  {
  }
}
