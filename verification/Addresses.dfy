/** State addresses: a six-character family prefix and 64 characters of a digest of the name. */
module Addresses {

  /** A SHA-512 hex digest. Nothing is assumed of the hash: different names may collide. */
  type Digest = s: string | |s| == 128 witness seq(128, i => '0')

  type Sha = string -> Digest

  function XoNamespace(sha: Sha): string {
    sha("xo")[0..6]
  }

  function XoAddress(sha: Sha, name: string): string {
    XoNamespace(sha) + sha(name)[..64]
  }

  function IntkeyPrefix(sha: Sha): string {
    sha("intkey")[0..6]
  }

  function IntkeyAddress(sha: Sha, name: string): string {
    IntkeyPrefix(sha) + sha(name)[128 - 64..]
  }

  /** Two names share an XO address exactly if the first halves of their digests agree. */
  lemma XoShared(sha: Sha, m: string, n: string)
    ensures |XoAddress(sha, m)| == 70 && XoAddress(sha, m)[..6] == sha("xo")[..6]
    ensures XoAddress(sha, m) == XoAddress(sha, n) <==> sha(m)[..64] == sha(n)[..64]
  {
    assert XoAddress(sha, m)[6..] == sha(m)[..64];
    assert XoAddress(sha, n)[6..] == sha(n)[..64];
  }

  /** They share an intkey address exactly if the second halves do. */
  lemma IntkeyShared(sha: Sha, m: string, n: string)
    ensures |IntkeyAddress(sha, m)| == 70 && IntkeyAddress(sha, m)[..6] == sha("intkey")[..6]
    ensures IntkeyAddress(sha, m) == IntkeyAddress(sha, n) <==> sha(m)[64..] == sha(n)[64..]
  {
    assert IntkeyAddress(sha, m)[6..] == sha(m)[64..];
    assert IntkeyAddress(sha, n)[6..] == sha(n)[64..];
  }

  predicate InFamily(address: string, prefix: string) {
    prefix <= address
  }

  lemma AddressFamilies(sha: Sha, name: string)
    ensures InFamily(XoAddress(sha, name), XoNamespace(sha))
    ensures InFamily(IntkeyAddress(sha, name), IntkeyPrefix(sha))
  {
  }

  /** Two prefixes of the same length share no address unless they are the same. */
  lemma FamiliesApart(address: string, p: string, q: string)
    requires |p| == |q| && InFamily(address, p) && InFamily(address, q)
    ensures p == q
  {
    assert p == address[..|p|];
    assert q == address[..|q|];
  }
}
