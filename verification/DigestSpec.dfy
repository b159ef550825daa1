/** The Digest response of RFC 2617 without `qop`, over any hash. */
module DigestSpec {
  import opened Bytes
  import opened Text
  import Md5Spec

  // Section 3.2.1: a hash as its hexadecimal text, here over the octets of a text
  type Hash = seq<byte> -> string

  function H(hash: Hash, data: string): string { hash(Octets(data)) }

  function KD(hash: Hash, secret: string, data: string): string { H(hash, secret + ":" + data) }

  /** Section 3.2.2.2, without an algorithm or with MD5. */
  function A1(username: string, realm: string, password: string): string { username + ":" + realm + ":" + password }

  /** Section 3.2.2.3, without `qop`. */
  function A2(name: string, uri: string): string { name + ":" + uri }

  /** Section 3.2.2.1, without `qop`. */
  function RequestDigest(hash: Hash, username: string, realm: string, password: string, nonce: string, name: string,
                         uri: string): string {
    KD(hash, H(hash, A1(username, realm, password)), nonce + ":" + H(hash, A2(name, uri)))
  }

  /** MD5 as RFC 1321 defines it. */
  function Md5Hash(data: seq<byte>): string { Md5Spec.DigestText(Md5Spec.Digest(data)) }
}
