/** Drift tests, SSL request parameters, and the mapping from a Cloudflare response to
    the fields a CustomHostname reports. */
module SSL {
  import opened Types

  // ---- Drift ----

  predicate SniDrifted(currentSNI: string, spec: Spec) {
    spec.originSNI.Some? && currentSNI != spec.originSNI.value
  }

  predicate FieldDrifted(spec: string, current: string) {
    spec != "" && current != spec
  }

  predicate SslDrifted(current: SSLConfig, spec: Option<SSLConfig>) {
    spec.Some?
    && (|| FieldDrifted(spec.value.certificateAuthority, current.certificateAuthority)
        || FieldDrifted(spec.value.minTLSVersion, current.minTLSVersion)
        || FieldDrifted(spec.value.dcvMethod, current.dcvMethod)
        || FieldDrifted(spec.value.validationType, current.validationType))
  }

  // The record differs from what the spec manages.
  predicate Drifted(spec: Spec, record: Record) {
    || record.originServer != spec.originServer
    || SniDrifted(record.originSNI, spec)
    || SslDrifted(record.ssl.config, spec.ssl)
  }

  // A setting is as the spec asks, or the spec does not ask.
  ghost predicate Asked(spec: string, current: string) {
    spec == "" || spec == current
  }

  // The settings of a spec; "" where it is silent.
  function Settings(spec: Spec): SSLConfig {
    if spec.ssl.Some? then spec.ssl.value else SSLConfig("", "", "", "")
  }

  // The record is what the spec asks for, field by field.
  ghost predicate Meets(spec: Spec, record: Record) {
    var asked, current := Settings(spec), record.ssl.config;
    && record.originServer == spec.originServer
    && (spec.originSNI == None || spec.originSNI == Some(record.originSNI))
    && Asked(asked.certificateAuthority, current.certificateAuthority)
    && Asked(asked.minTLSVersion, current.minTLSVersion)
    && Asked(asked.dcvMethod, current.dcvMethod)
    && Asked(asked.validationType, current.validationType)
  }

  /** The drift tests find every difference from the spec, and nothing else. */
  lemma DriftIsExact(spec: Spec, record: Record)
    ensures Drifted(spec, record) <==> !Meets(spec, record)
  {
  }

  // ---- Request parameters ----

  function OrElse(value: string, fallback: string): string {
    if value != "" then value else fallback
  }

  function BuildSSLParams(ssl: SSLConfig, defaults: SSLConfig): SSLConfig {
    SSLConfig(
      OrElse(ssl.certificateAuthority, defaults.certificateAuthority),
      OrElse(ssl.minTLSVersion, defaults.minTLSVersion),
      OrElse(OrElse(ssl.dcvMethod, defaults.dcvMethod), METHOD_HTTP),
      OrElse(OrElse(ssl.validationType, defaults.validationType), TYPE_DV))
  }

  function BuildSSLEditParams(ssl: SSLConfig, current: SSLConfig): SSLConfig {
    SSLConfig(
      OrElse(ssl.certificateAuthority, current.certificateAuthority),
      OrElse(ssl.minTLSVersion, current.minTLSVersion),
      OrElse(OrElse(ssl.dcvMethod, current.dcvMethod), METHOD_HTTP),
      OrElse(OrElse(ssl.validationType, current.validationType), TYPE_DV))
  }

  // ---- Response to status ----

  function TimePtr(t: Time): Option<Time> {
    if t == ZERO_TIME then None else Some(t)
  }

  function Messages(errors: seq<ValidationError>): seq<string> {
    seq(|errors|, i requires 0 <= i < |errors| => errors[i].message)
  }

  // The status.ssl that reports a response.
  function SSLStatusOf(ssl: CFSSL): SSLStatus {
    SSLStatus(
      ssl.status, ssl.config, ssl.id, ssl.issuer, ssl.serialNumber, ssl.bundleMethod, ssl.wildcard,
      ssl.hosts, TimePtr(ssl.uploadedOn), TimePtr(ssl.expiresOn),
      ssl.validationRecords, Messages(ssl.validationErrors))
  }

  // A zero time is not reported, any other is.
  ghost predicate ShowsTime(shown: Option<Time>, t: Time) {
    (t == ZERO_TIME <==> shown == None) && (shown.Some? ==> shown.value == t)
  }

  // The status shows a response, field by field.
  ghost predicate Shows(s: SSLStatus, cf: CFSSL) {
    && s.status == cf.status && s.config == cf.config
    && s.id == cf.id && s.issuer == cf.issuer && s.serialNumber == cf.serialNumber
    && s.bundleMethod == cf.bundleMethod && s.wildcard == cf.wildcard && s.hosts == cf.hosts
    && ShowsTime(s.uploadedOn, cf.uploadedOn) && ShowsTime(s.expiresOn, cf.expiresOn)
    && s.validationRecords == cf.validationRecords
    && |s.validationErrors| == |cf.validationErrors|
    && (forall i :: 0 <= i < |s.validationErrors| ==> s.validationErrors[i] == cf.validationErrors[i].message)
  }

  lemma StatusShowsResponse(cf: CFSSL)
    ensures Shows(SSLStatusOf(cf), cf)
  {
  }

  /** The three mirrored response mappings: the same for create, list and edit responses. */
  method CfStateFrom(response: Record) returns (hostnameStatus: string, ssl: SSLStatus)
    ensures hostnameStatus == response.status
    ensures ssl == SSLStatusOf(response.ssl) && Shows(ssl, response.ssl)
  {
    var r := response.ssl;
    var uploadedOn: Option<Time>, expiresOn: Option<Time> := None, None;
    if r.uploadedOn != ZERO_TIME {
      uploadedOn := Some(r.uploadedOn);
    }
    if r.expiresOn != ZERO_TIME {
      expiresOn := Some(r.expiresOn);
    }
    var records: seq<ValidationRecord> := [];
    for i := 0 to |r.validationRecords|
      invariant records == r.validationRecords[..i]
    {
      var vr := r.validationRecords[i];
      records := records + [ValidationRecord(vr.txtName, vr.txtValue, vr.httpURL, vr.httpBody, vr.emails)];
    }
    var errors: seq<string> := [];
    for i := 0 to |r.validationErrors|
      invariant |errors| == i
      invariant forall k :: 0 <= k < i ==> errors[k] == r.validationErrors[k].message
    {
      errors := errors + [r.validationErrors[i].message];
    }
    hostnameStatus := response.status;
    ssl := SSLStatus(r.status, r.config, r.id, r.issuer, r.serialNumber, r.bundleMethod, r.wildcard,
                     r.hosts, uploadedOn, expiresOn, records, errors);
  }

  // ---- The coordinator's cheap comparison ----

  predicate TimePtrEqual(mt: Option<Time>, gt: Time) {
    if gt == ZERO_TIME then mt.None? else mt.Some? && mt.value == gt
  }

  // The comparison of one field.
  predicate FieldChanged(field: SSLField, s: SSLStatus, cf: CFSSL) {
    match field
    case CAField => s.config.certificateAuthority != cf.config.certificateAuthority
    case MinTLSField => s.config.minTLSVersion != cf.config.minTLSVersion
    case MethodField => s.config.dcvMethod != cf.config.dcvMethod
    case TypeField => s.config.validationType != cf.config.validationType
    case StatusField => s.status != cf.status
    case IdField => s.id != cf.id
    case IssuerField => s.issuer != cf.issuer
    case SerialNumberField => s.serialNumber != cf.serialNumber
    case BundleMethodField => s.bundleMethod != cf.bundleMethod
    case WildcardField => s.wildcard != cf.wildcard
    case UploadedOnField => !TimePtrEqual(s.uploadedOn, cf.uploadedOn)
    case ExpiresOnField => !TimePtrEqual(s.expiresOn, cf.expiresOn)
  }

  // The fields of status.ssl that no longer match Cloudflare; {} is the nil map.
  function ChangedFields(status: Option<SSLStatus>, cf: CFSSL): set<SSLField> {
    match status
    case None => if cf.status != "" then {StatusField} else {}
    case Some(s) => set field: SSLField | FieldChanged(field, s, cf)
  }

  // Equal up to the three fields the comparison leaves out on purpose.
  predicate SameButProgress(a: SSLStatus, b: SSLStatus) {
    a == b.(hosts := a.hosts, validationRecords := a.validationRecords, validationErrors := a.validationErrors)
  }

  lemma SilenceMeansSame(s: SSLStatus, cf: CFSSL)
    requires ChangedFields(Some(s), cf) == {}
    ensures SameButProgress(s, SSLStatusOf(cf))
  {
    var changed := ChangedFields(Some(s), cf);
    forall field: SSLField ensures !FieldChanged(field, s, cf) {
      assert FieldChanged(field, s, cf) ==> field in changed;
    }
    assert !FieldChanged(CAField, s, cf) && !FieldChanged(MinTLSField, s, cf);
    assert !FieldChanged(MethodField, s, cf) && !FieldChanged(TypeField, s, cf);
    assert s.config == cf.config;
    assert !FieldChanged(StatusField, s, cf) && !FieldChanged(IdField, s, cf);
    assert !FieldChanged(IssuerField, s, cf) && !FieldChanged(SerialNumberField, s, cf);
    assert !FieldChanged(BundleMethodField, s, cf) && !FieldChanged(WildcardField, s, cf);
    assert !FieldChanged(UploadedOnField, s, cf) && !FieldChanged(ExpiresOnField, s, cf);
  }

  lemma SameMeansSilence(s: SSLStatus, cf: CFSSL)
    requires SameButProgress(s, SSLStatusOf(cf))
    ensures ChangedFields(Some(s), cf) == {}
  {
  }

  /** The comparison is silent exactly when a refresh would change nothing outside hosts,
      validation records and validation errors. Without a status it is silent exactly
      when Cloudflare reports no SSL status, whatever else the response holds. */
  lemma CheapComparisonIsExact(status: Option<SSLStatus>, cf: CFSSL)
    ensures status.Some? ==> (ChangedFields(status, cf) == {} <==> SameButProgress(status.value, SSLStatusOf(cf)))
    ensures status.None? ==> (ChangedFields(status, cf) == {} <==> cf.status == "")
  {
    if status.Some? {
      if ChangedFields(status, cf) == {} {
        SilenceMeansSame(status.value, cf);
      }
      if SameButProgress(status.value, SSLStatusOf(cf)) {
        SameMeansSilence(status.value, cf);
      }
    }
  }

  /** Refreshing and comparing again always finds nothing, zero times included. */
  lemma RefreshSilencesComparison(cf: CFSSL)
    ensures ChangedFields(Some(SSLStatusOf(cf)), cf) == {}
  {
    CheapComparisonIsExact(Some(SSLStatusOf(cf)), cf);
  }
}
