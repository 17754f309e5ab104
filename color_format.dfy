/** color_format.go: the two colour reorders a model can ask for. */
module ColorFormat {

  /** Keeps the `(r, g, b)` order. */
  function ColorFormatRGB<T>(r: T, g: T, b: T): (t: (T, T, T))
    ensures multiset{t.0, t.1, t.2} == multiset{r, g, b}
    ensures t.1 == g
  {
    (r, g, b)
  }

  /** Emits `(b, g, r)`: the outer values swap, green stays in the middle. */
  function ColorFormatBGR<T>(r: T, g: T, b: T): (t: (T, T, T))
    ensures multiset{t.0, t.1, t.2} == multiset{r, g, b}
    ensures t.1 == g
  {
    (b, g, r)
  }

  /** RGB is the identity on triples. */
  lemma RgbIsIdentity<T>(t: (T, T, T))
    ensures ColorFormatRGB(t.0, t.1, t.2) == t
  {
  }

  /** BGR swaps the first and third values. */
  lemma BgrSwapsOuter<T>(r: T, g: T, b: T)
    ensures ColorFormatBGR(r, g, b).0 == b && ColorFormatBGR(r, g, b).2 == r
  {
  }

  /** BGR undoes itself. */
  lemma BgrInvolution<T>(r: T, g: T, b: T)
    ensures var t := ColorFormatBGR(r, g, b); ColorFormatBGR(t.0, t.1, t.2) == (r, g, b)
  {
  }
}
