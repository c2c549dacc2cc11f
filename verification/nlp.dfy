/** The part of the language toolkit's analysis that the service reads: one
    record per token of the analysed text. The analysis itself (tokenising,
    tagging, lemmatising, parsing) is an oracle given to the service. */
module Nlp {

  /** A token of an analysed text; `lemmaForm` is its lemma. `head` and `children` are positions of other
      tokens of the same document, which is how the toolkit compares tokens. */
  datatype Token = Token(text: string, lemmaForm: string, pos: string, head: nat, children: seq<nat>)

  /** An analysed text, tokens in text order. */
  type Doc = seq<Token>

  const VERB: string := "VERB"
  const NOUN: string := "NOUN"

  /** A dependency edge joins the tokens at positions `v` and `n`: `n`'s head is
      `v`, or `n` is among `v`'s children. */
  predicate Linked(doc: Doc, v: nat, n: nat)
    requires v < |doc| && n < |doc|
  {
    doc[n].head == v || n in doc[v].children
  }
}
