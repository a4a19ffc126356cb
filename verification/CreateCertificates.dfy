/** pkg/controller/virtualdatabase/create-certificates.go: the key store the deployment mounts. */
module CreateCertificates {
  import opened Outcomes
  import opened Vdb
  import opened Operator

  /** Whether the key store secret is there, and what the calls yield that make one: reading the
      certificates, building the key store, reading the trusted certificate, building the trust store and
      creating the secret of the two stores. */
  datatype Answers = Answers(
    present: bool,
    certificates: Result<string>,
    keystore: string -> Result<string>,
    trusted: Result<string>,
    truststore: string -> Result<string>,
    create: (string, string) -> Option<string>)

  /** The first error on the way to the secret. */
  function FirstError(a: Answers): Option<string> {
    match a.certificates
    case Failure(e) => Some(e)
    case Success(certs) =>
      match a.keystore(certs)
      case Failure(e) => Some(e)
      case Success(keystore) =>
        match a.trusted
        case Failure(e) => Some(e)
        case Success(trusted) =>
          match a.truststore(trusted)
          case Failure(e) => Some(e)
          case Success(truststore) => a.create(keystore, truststore)
  }

  function Handled(v: Resource, a: Answers): (Resource, Option<string>) {
    if !a.present && FirstError(a).Some? then (v, FirstError(a))
    else (WithPhase(v, KeystoreCreated), None)
  }

  method CreateKeystore(a: Answers) returns (error: Option<string>)
    ensures error == FirstError(a)
  {
    var certs := a.certificates;
    if certs.Failure? {
      return Some(certs.error);
    }
    var keystorePkcs12 := a.keystore(certs.value);
    if keystorePkcs12.Failure? {
      return Some(keystorePkcs12.error);
    }
    var defaultTrustCert := a.trusted;
    if defaultTrustCert.Failure? {
      return Some(defaultTrustCert.error);
    }
    var truststorePkcs12 := a.truststore(defaultTrustCert.value);
    if truststorePkcs12.Failure? {
      return Some(truststorePkcs12.error);
    }
    return a.create(keystorePkcs12.value, truststorePkcs12.value);
  }

  method Handle(vdb: VirtualDatabase, a: Answers) returns (error: Option<string>)
    requires vdb.status.phase == ServiceCreated
    modifies vdb
    ensures (vdb.Value(), error) == Handled(old(vdb.Value()), a)
  {
    if a.present {
      vdb.status := vdb.status.(phase := KeystoreCreated);
      return None;
    }
    error := CreateKeystore(a);
    if error.None? {
      vdb.status := vdb.status.(phase := KeystoreCreated);
    }
  }

  // ---------- properties ----------

  /** The phase moves on if and only if the secret is there, or the certificates yield a key store, the trusted
      certificate yields a trust store, and a secret of the two is created. Otherwise nothing changes. */
  lemma KeystoreExactly(v: Resource, a: Answers)
    ensures
      var (w, error) := Handled(v, a);
      && w == (if error.None? then v.(status := v.status.(phase := KeystoreCreated)) else v)
      && (error.None? <==>
            || a.present
            || (&& a.certificates.Success? && a.trusted.Success?
                && var k, t := a.keystore(a.certificates.value), a.truststore(a.trusted.value);
                   k.Success? && t.Success? && a.create(k.value, t.value).None?))
  {}
}
