/** SHA-256 stays uninterpreted: a function from the hashed text to its hexadecimal digest. */
module Digest {
  import opened Text

  /** What `sha256_hex` prints: 64 lower-case hexadecimal digits. */
  predicate IsDigest(s: string) {
    |s| == 64 && forall i :: 0 <= i < 64 ==> IsDigit(s[i]) || 'a' <= s[i] <= 'f'
  }

  /** Two texts share a digest only when they are the same text. */
  predicate NoCollision(sha: string -> string, a: string, b: string) {
    sha(a) == sha(b) ==> a == b
  }

  lemma DropLabel(mark: string, a: string, b: string)
    requires mark + a == mark + b
    ensures a == b
  {
    assert (mark + a)[|mark|..] == a && (mark + b)[|mark|..] == b;
  }

  lemma SamePrefix(p: string, a: string, b: string)
    ensures p + a == p + b <==> a == b
  {
    if p + a == p + b { DropLabel(p, a, b); }
  }
}
