/** Substring positions, shared by the range matcher and the renderer. */
module Text {
  /** Does `pat` occur in `t` at position `i`? */
  predicate OccursAt(t: string, pat: string, i: nat) {
    i + |pat| <= |t| && t[i..i + |pat|] == pat
  }
}
