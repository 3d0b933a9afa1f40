/**
 The session configuration the setup page hands to the timer page through
 session storage (key `lockedInConfig`).
 */
module SessionConfig {

  datatype Config = Config(
    durationMs: int,
    pin: string,
    enableQuotes: bool,
    microEveryMin: int,
    standEveryMin: int,
    standLenMin: int,
    emergency: seq<string>,
    description: string)
}
