/** The configuration record the handlers read; loaded once and never changed while serving. */
module Settings {

  /** The reCAPTCHA keys; the check is active only when both are non-empty. */
  datatype ReCaptcha = ReCaptcha(siteKey: string, secretKey: string)

  /** Length and alphabet of generated tokens. Go `int`, so the length may be negative. */
  datatype Generator = Generator(length: int, charset: string)

  /** The fields of the configuration that the short-link engine uses. The MongoDB connection
      settings are not here: the store is a value passed to each operation. */
  datatype Config = Config(
    domain: string,
    protocol: string,
    port: int,
    reCaptcha: ReCaptcha,
    generator: Generator)

  /** The captcha is consulted only when both keys are configured. */
  predicate CaptchaEnabled(c: Config) {
    |c.reCaptcha.secretKey| > 0 && |c.reCaptcha.siteKey| > 0
  }

  /** A generator the Go code can run without panicking: `make` refuses a negative length and
      `Intn(0)` panics, which is reached only when at least one character is drawn. */
  predicate GeneratorRuns(g: Generator) {
    g.length >= 0 && (g.length == 0 || |g.charset| > 0)
  }
}
