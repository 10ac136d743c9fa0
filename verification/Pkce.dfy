/** Proof keys for code exchange (RFC 7636). The hash is a parameter. */
module Pkce {
  import opened Wrappers

  type Hash = string -> string  // SHA-256, then unpadded base64url

  predicate VerifyS256(hash: Hash, verifier: string, challenge: string) {
    verifier != "" && challenge != "" && hash(verifier) == challenge
  }

  predicate VerifyPlain(verifier: string, challenge: string) {
    verifier != "" && verifier == challenge
  }

  /** Nothing, or the error message. */
  function Verify(hash: Hash, verifier: string, challenge: string, method_: string): Option<string> {
    if verifier == "" then Some("missing code_verifier")
    else if challenge == "" then Some("missing code_challenge")
    else
      var m := if method_ == "" then "S256" else method_;
      if m == "S256" then
        if VerifyS256(hash, verifier, challenge) then None else Some("invalid code_verifier for S256 challenge")
      else if m == "plain" then
        if VerifyPlain(verifier, challenge) then None else Some("invalid code_verifier for plain challenge")
      else Some("unsupported code_challenge_method")
  }

  /** The challenge that a verifier answers under a method, as section 4.6 of RFC 7636 computes it. */
  function Transform(hash: Hash, verifier: string, method_: string): Option<string> {
    if method_ == "" || method_ == "S256" then Some(hash(verifier))
    else if method_ == "plain" then Some(verifier)
    else None
  }

  /** A verifier is accepted exactly when it is non-empty and transforms to the non-empty challenge. */
  lemma VerifyMeetsTransform(hash: Hash, verifier: string, challenge: string, method_: string)
    ensures Verify(hash, verifier, challenge, method_) == None <==>
              verifier != "" && challenge != "" && Transform(hash, verifier, method_) == Some(challenge)
  {
  }
}
