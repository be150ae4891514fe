/**
 * Issuer option helpers and renewal scheduling (pkg/controller/helper.go).
 * `time.Now` is the parameter `now`; logging is left out.
 */
module Controller {
  import opened Outcomes
  import opened GoTime
  import opened Api
  import opened Pki

  /** The controller-wide settings that the helpers read. */
  datatype IssuerOptions = IssuerOptions(
    clusterResourceNamespace: string,
    clusterIssuerAmbientCredentials: bool,
    issuerAmbientCredentials: bool,
    renewBeforeExpiryDuration: Duration)

  /** The namespace an issuer's secrets live in: its own, or the cluster resource namespace when it has none. */
  function ResourceNamespace(o: IssuerOptions, iss: GenericIssuer): (ns: string)
    ensures iss.namespace != "" ==> ns == iss.namespace
    ensures iss.namespace == "" ==> ns == o.clusterResourceNamespace
    ensures ns == "" <==> iss.namespace == "" && o.clusterResourceNamespace == ""
  {
    var ns := iss.namespace;
    if ns == "" then o.clusterResourceNamespace else ns
  }

  /** Ambient credentials are allowed per issuer scope, and never for an issuer of another type. */
  function CanUseAmbientCredentials(o: IssuerOptions, iss: GenericIssuer): (b: bool)
    ensures b <==> || (iss.ClusterIssuer? && o.clusterIssuerAmbientCredentials)
                   || (iss.Issuer? && o.issuerAmbientCredentials)
    ensures iss.OtherIssuer? ==> !b
  {
    match iss
    case ClusterIssuer(_) => o.clusterIssuerAmbientCredentials
    case Issuer(_) => o.issuerAmbientCredentials
    case OtherIssuer(_) => false
  }

  /** The renew-before window as configured: the Certificate's own when set, else the controller default. */
  function ConfiguredRenewBefore(o: IssuerOptions, spec: CertificateSpec): (d: Duration)
    ensures spec.renewBefore.Some? ==> d == spec.renewBefore.value
    ensures spec.renewBefore.None? ==> d == o.renewBeforeExpiryDuration
  {
    if spec.renewBefore.Some? then spec.renewBefore.value else o.renewBeforeExpiryDuration
  }

  /**
   * A renew-before window longer than the certificate's lifetime becomes a third of the
   * lifetime (Go division, toward zero). The window then never exceeds a non-negative
   * lifetime; when clamped it lies between zero and the lifetime whatever its sign.
   */
  function ClampRenewBefore(renewBefore: Duration, certDuration: Duration): (d: Duration)
    ensures renewBefore <= certDuration ==> d == renewBefore
    ensures renewBefore > certDuration ==> d == QuoThree(certDuration)
    ensures certDuration >= 0 ==> d <= certDuration
    ensures renewBefore > certDuration && certDuration >= 0 ==> 0 <= 3 * d <= certDuration < 3 * d + 3
    ensures renewBefore > certDuration && certDuration < 0 ==> certDuration < d <= 0
  {
    if renewBefore > certDuration then QuoThree(certDuration) else renewBefore
  }

  /** The window that CalculateDurationUntilRenew subtracts, after clamping to the certificate's lifetime. */
  function EffectiveRenewBefore(o: IssuerOptions, cert: X509Certificate, crt: Certificate): (d: Duration)
    ensures cert.notBefore <= cert.notAfter ==> cert.notBefore <= cert.notAfter - d
  {
    ClampRenewBefore(ConfiguredRenewBefore(o, crt.spec), Sub(cert.notAfter, cert.notBefore))
  }

  /**
   * CalculateDurationUntilRenew: time left until NotAfter minus the (clamped) renew-before
   * window. `Time.Sub` saturates and the final subtraction is int64 arithmetic; whenever
   * neither step overflows the result is the exact difference.
   * The requested-duration comparison in the source only logs, so it has no counterpart here.
   */
  function CalculateDurationUntilRenew(o: IssuerOptions, cert: X509Certificate, crt: Certificate, now: Instant): (d: Duration)
    ensures InInt64(cert.notAfter - now) && InInt64(cert.notAfter - now - EffectiveRenewBefore(o, cert, crt)) ==>
      d == (cert.notAfter - now) - EffectiveRenewBefore(o, cert, crt)
    ensures InInt64(cert.notAfter - now) ==>
      (d - ((cert.notAfter - now) - EffectiveRenewBefore(o, cert, crt))) % TwoTo64 == 0
  {
    var durationUntilExpiry := Sub(cert.notAfter, now);
    WrapInt64(durationUntilExpiry - EffectiveRenewBefore(o, cert, crt))
  }

  /** CertificateNeedsRenew: without overflow, true exactly when `now` has reached NotAfter minus the window. */
  function CertificateNeedsRenew(o: IssuerOptions, cert: X509Certificate, crt: Certificate, now: Instant): (b: bool)
    ensures InInt64(cert.notAfter - now) && InInt64(cert.notAfter - now - EffectiveRenewBefore(o, cert, crt)) ==>
      (b <==> now >= cert.notAfter - EffectiveRenewBefore(o, cert, crt))
  {
    CalculateDurationUntilRenew(o, cert, crt, now) <= 0
  }

  /** Whether Spec.Duration is set, and to what, does not change the schedule. */
  lemma RenewalIgnoresRequestedDuration(o: IssuerOptions, cert: X509Certificate, crt: Certificate, now: Instant, requested: Option<Duration>)
    ensures CalculateDurationUntilRenew(o, cert, crt.(spec := crt.spec.(duration := requested)), now)
         == CalculateDurationUntilRenew(o, cert, crt, now)
  {
  }

  const Day: Duration := 24 * Hour

  /** A 90-day certificate with a 30-day window, looked at when it was issued, renews in 60 days. */
  lemma NinetyDayCertificateRenewsAfterSixtyDays(o: IssuerOptions, t0: Instant, crt: Certificate, pub: PublicKey)
    requires crt.spec.renewBefore == Some(30 * Day)
    ensures CalculateDurationUntilRenew(o, X509Certificate(t0, t0 + 90 * Day, pub), crt, t0) == 60 * Day
  {
  }

  /** A 30-day window on a 10-day certificate is clamped to a third of 10 days, so renewal is due after the other two thirds. */
  lemma OverlongWindowIsClampedToAThird(o: IssuerOptions, t0: Instant, crt: Certificate, pub: PublicKey)
    requires crt.spec.renewBefore == Some(30 * Day)
    ensures EffectiveRenewBefore(o, X509Certificate(t0, t0 + 10 * Day, pub), crt) == 288_000 * Second
    ensures CalculateDurationUntilRenew(o, X509Certificate(t0, t0 + 10 * Day, pub), crt, t0) == 10 * Day - 288_000 * Second
  {
  }

  /** Past the renewal point the result is negative: at NotAfter, a 90-day certificate with a 30-day window is 30 days overdue. */
  lemma OverdueRenewalIsNegative(o: IssuerOptions, t0: Instant, crt: Certificate, pub: PublicKey)
    requires crt.spec.renewBefore == Some(30 * Day)
    ensures CalculateDurationUntilRenew(o, X509Certificate(t0, t0 + 90 * Day, pub), crt, t0 + 90 * Day) == -30 * Day
    ensures CertificateNeedsRenew(o, X509Certificate(t0, t0 + 90 * Day, pub), crt, t0 + 90 * Day)
  {
  }
}
