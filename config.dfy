/** The settings the token factory reads: key material, algorithm and the
    two expiry windows. They are passed in rather than loaded from the
    environment. */
module Config {
  import opened Codec

  /** Window defaults used when the environment does not set them. */
  const DefaultAccessTokenExpireMinutes: int := 30
  const DefaultRefreshTokenExpireDays: int := 14

  datatype Settings = Settings(
    algorithm: string,
    privateKey: PrivateKey,
    publicKey: PublicKey,
    accessTokenExpireMinutes: int,
    refreshTokenExpireDays: int)

  /** Settings with both windows left at their defaults. */
  function WithDefaultWindows(algorithm: string, privateKey: PrivateKey, publicKey: PublicKey): Settings
  {
    Settings(algorithm, privateKey, publicKey, DefaultAccessTokenExpireMinutes, DefaultRefreshTokenExpireDays)
  }

  /** The configured public key verifies what the configured private key signs. */
  predicate KeysMatch(s: Settings)
  {
    s.publicKey == PublicOf(s.privateKey)
  }
}
