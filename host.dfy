/** Artifact references of the wasmCloud host: classifying a reference string
    as a local file, a Bindle or an OCI image, finding the registry authority
    of an identifier, choosing the registry settings for it, and deciding
    which fetcher `fetch_actor` and `fetch_provider` call and with what.

    `Url::parse` and `Url::to_file_path` are parameters (the WHATWG parser is
    not modelled); so is every fetcher, which is called with a `FetchCall`
    naming the fetcher and the credentials and flags it receives. */
module Host {
  import opened Results
  import opened Text

  /** A local filesystem path (`PathBuf`). */
  type Path = string

  /** A parsed URL. Only its scheme, already lower-cased by the parser, is
      inspected here. */
  datatype Url = Url(scheme: string, serialization: string)

  /** The parser's failures: a string without a scheme is told apart from
      every other failure. */
  datatype ParseError = RelativeUrlWithoutBase | OtherParseError(description: string)

  /** Where an actor or provider artifact comes from. */
  datatype ResourceRef = File(path: Path) | Bindle(reference: string) | Oci(reference: string)

  /** Why a reference string could not be classified. */
  datatype RefError =
    | NotAFilePath(url: Url)
    | InvalidBindleReference
    | InvalidOciReference
    | UnsupportedScheme(scheme: string)
    | InvalidBareOciReference(cause: ParseError)
    | UnparsableReference(reference: string, cause: ParseError)

  const BINDLE_PREFIX: string := "bindle://"
  const OCI_PREFIX: string := "oci://"

  // ---------------------------------------------------------------------
  // Classification

  /** `ResourceRef::try_from`. A `Bindle` or `Oci` result is the reference
      string with its literal scheme prefix removed, except that a string
      without a scheme, which parses once "oci://" is put in front of it, is
      an `Oci` reference to the whole original string. */
  function TryFrom(s: string, parse: string -> Result<Url, ParseError>,
                   toFilePath: Url -> Option<Path>): (r: Result<ResourceRef, RefError>)
    ensures r.Ok? && r.value.File? ==>
              parse(s).Ok? && parse(s).value.scheme == "file"
              && toFilePath(parse(s).value) == Some(r.value.path)
    ensures r.Ok? && r.value.Bindle? ==>
              parse(s).Ok? && parse(s).value.scheme == "bindle"
              && s == BINDLE_PREFIX + r.value.reference
    ensures r.Ok? && r.value.Oci? ==>
              (parse(s).Ok? && parse(s).value.scheme == "oci" && s == OCI_PREFIX + r.value.reference)
              || (parse(s) == Err(RelativeUrlWithoutBase) && parse(OCI_PREFIX + s).Ok?
                  && r.value.reference == s)
  {
    match parse(s)
    case Ok(url) =>
      if url.scheme == "file" then
        (match toFilePath(url)
         case Some(path) => Ok(File(path))
         case None => Err(NotAFilePath(url)))
      else if url.scheme == "bindle" then
        (match StripPrefix(s, BINDLE_PREFIX)
         case Some(rest) => Ok(Bindle(rest))
         case None => Err(InvalidBindleReference))
      else if url.scheme == "oci" then
        (match StripPrefix(s, OCI_PREFIX)
         case Some(rest) => Ok(Oci(rest))
         case None => Err(InvalidOciReference))
      else
        Err(UnsupportedScheme(url.scheme))
    case Err(RelativeUrlWithoutBase) =>
      (match parse(OCI_PREFIX + s)
       case Ok(_) => Ok(Oci(s))
       case Err(e) => Err(InvalidBareOciReference(e)))
    case Err(e) => Err(UnparsableReference(s, e))
  }

  /** A `file` URL is a `File` reference exactly when it converts to a path. */
  lemma TryFromFile(s: string, parse: string -> Result<Url, ParseError>,
                    toFilePath: Url -> Option<Path>)
    requires parse(s).Ok? && parse(s).value.scheme == "file"
    ensures toFilePath(parse(s).value).None? ==>
              TryFrom(s, parse, toFilePath) == Err(NotAFilePath(parse(s).value))
    ensures toFilePath(parse(s).value).Some? ==>
              TryFrom(s, parse, toFilePath) == Ok(File(toFilePath(parse(s).value).value))
  {
  }

  /** A `bindle` URL is a `Bindle` reference exactly when the string starts
      with the literal "bindle://" (the parser also accepts, say,
      "BINDLE://x" or "bindle:x", which are rejected). */
  lemma TryFromBindle(s: string, parse: string -> Result<Url, ParseError>,
                      toFilePath: Url -> Option<Path>)
    requires parse(s).Ok? && parse(s).value.scheme == "bindle"
    ensures TryFrom(s, parse, toFilePath).Ok? <==> BINDLE_PREFIX <= s
    ensures !(BINDLE_PREFIX <= s) ==> TryFrom(s, parse, toFilePath) == Err(InvalidBindleReference)
  {
  }

  /** An `oci` URL is an `Oci` reference exactly when the string starts with
      the literal "oci://". */
  lemma TryFromOci(s: string, parse: string -> Result<Url, ParseError>,
                   toFilePath: Url -> Option<Path>)
    requires parse(s).Ok? && parse(s).value.scheme == "oci"
    ensures TryFrom(s, parse, toFilePath).Ok? <==> OCI_PREFIX <= s
    ensures !(OCI_PREFIX <= s) ==> TryFrom(s, parse, toFilePath) == Err(InvalidOciReference)
  {
  }

  /** Every scheme other than file, bindle and oci is refused. */
  lemma TryFromUnsupportedScheme(s: string, parse: string -> Result<Url, ParseError>,
                                 toFilePath: Url -> Option<Path>)
    requires parse(s).Ok? && parse(s).value.scheme !in {"file", "bindle", "oci"}
    ensures TryFrom(s, parse, toFilePath) == Err(UnsupportedScheme(parse(s).value.scheme))
  {
  }

  /** A string without a scheme is an OCI reference to itself when
      "oci://" followed by it parses, and an error otherwise; every other
      parse failure is an error naming the string. */
  lemma TryFromParseFailure(s: string, parse: string -> Result<Url, ParseError>,
                            toFilePath: Url -> Option<Path>)
    requires parse(s).Err?
    ensures parse(s).error == RelativeUrlWithoutBase && parse(OCI_PREFIX + s).Ok? ==>
              TryFrom(s, parse, toFilePath) == Ok(Oci(s))
    ensures parse(s).error == RelativeUrlWithoutBase && parse(OCI_PREFIX + s).Err? ==>
              TryFrom(s, parse, toFilePath) == Err(InvalidBareOciReference(parse(OCI_PREFIX + s).error))
    ensures parse(s).error != RelativeUrlWithoutBase ==>
              TryFrom(s, parse, toFilePath) == Err(UnparsableReference(s, parse(s).error))
  {
  }

  /** Round trip: prefixing an identifier with "bindle://" or "oci://" and
      classifying it gives the identifier back, whenever the parser reads
      that scheme from it. */
  lemma PrefixedRoundTrip(t: string, parse: string -> Result<Url, ParseError>,
                          toFilePath: Url -> Option<Path>)
    ensures parse(BINDLE_PREFIX + t).Ok? && parse(BINDLE_PREFIX + t).value.scheme == "bindle" ==>
              TryFrom(BINDLE_PREFIX + t, parse, toFilePath) == Ok(Bindle(t))
    ensures parse(OCI_PREFIX + t).Ok? && parse(OCI_PREFIX + t).value.scheme == "oci" ==>
              TryFrom(OCI_PREFIX + t, parse, toFilePath) == Ok(Oci(t))
  {
  }

  // ---------------------------------------------------------------------
  // Registry authority and settings

  /** `a` is the authority of `id`: the text before the first '/'. */
  predicate IsAuthorityOf(a: string, id: string) {
    '/' !in a && a + "/" <= id
  }

  /** `oci_authority`: the part of `s` before its first '/', if it has one. */
  function OciAuthority(s: string): (a: Option<string>)
    ensures a.None? <==> '/' !in s
    ensures a.Some? ==> IsAuthorityOf(a.value, s)
  {
    match SplitOnce(s, '/')
    case None => None
    case Some((before, _)) =>
      assert s == before + "/" + s[|before| + 1..];
      Some(before)
  }

  /** A string has at most one authority. */
  lemma AuthorityUnique(a: string, b: string, id: string)
    requires IsAuthorityOf(a, id) && IsAuthorityOf(b, id)
    ensures a == b
  {
    assert id[|a|] == '/' && id[|b|] == '/';
    assert |a| == |b|;
    assert a == id[..|a|] == b;
  }

  /** `OciAuthority` finds the authority whenever there is one. */
  lemma OciAuthorityIsTheAuthority(a: string, id: string)
    ensures OciAuthority(id) == Some(a) <==> IsAuthorityOf(a, id)
  {
    if IsAuthorityOf(a, id) {
      assert '/' in id by { assert id[|a|] == '/'; }
      AuthorityUnique(a, OciAuthority(id).value, id);
    }
  }

  /** The authority of "host/path" is the host, for any slash-free host:
      "myregistry.io/ns/actor:0.1.0" has authority "myregistry.io". */
  lemma OciAuthorityOfHostPath(host: string, path: string)
    requires '/' !in host
    ensures OciAuthority(host + "/" + path) == Some(host)
  {
    assert host + "/" <= host + "/" + path;
    OciAuthorityIsTheAuthority(host, host + "/" + path);
  }

  /** A string without '/' has no authority. */
  lemma NoSlashNoAuthority(a: string, id: string)
    requires '/' !in id
    ensures !IsAuthorityOf(a, id)
  {
    assert |a| < |id| ==> id[|a|] != '/';
  }

  /** How to authenticate to a registry. */
  datatype RegistryAuth = Basic(username: string, password: string) | Token(token: string) | Anonymous

  /** Per-authority registry policy. */
  datatype RegistrySettings = RegistrySettings(auth: RegistryAuth, allowLatest: bool, allowInsecure: bool)

  /** `oci_authority(id).and_then(|authority| registry_settings.get(authority))`:
      the settings stored under the identifier's authority, if any. */
  function SettingsFor(id: string, settings: map<string, RegistrySettings>): (r: Option<RegistrySettings>)
    ensures forall a :: a in settings && IsAuthorityOf(a, id) ==> r == Some(settings[a])
    ensures (forall a :: a in settings ==> !IsAuthorityOf(a, id)) ==> r == None
  {
    match OciAuthority(id)
    case None =>
      forall b | b in settings ensures !IsAuthorityOf(b, id) {
        NoSlashNoAuthority(b, id);
      }
      None
    case Some(a) =>
      forall b | b in settings && IsAuthorityOf(b, id) ensures b == a {
        AuthorityUnique(a, b, id);
      }
      if a in settings then Some(settings[a]) else None
  }

  // ---------------------------------------------------------------------
  // Fetch dispatch

  datatype Artifact = Actor | Provider

  /** A call to one of the fetchers: which one, and what it is given
      (`fs::read` or `par::read`, `bindle::fetch_*`, `oci::fetch_*`). */
  datatype FetchCall =
    | ReadFile(path: Path)
    | FetchBindle(reference: string, auth: RegistryAuth)
    | FetchOci(reference: string, auth: RegistryAuth, allowLatest: bool, allowInsecure: bool)

  /** What a fetcher reports when it fails. */
  datatype FetcherError = FetcherError(detail: string)

  /** Why `fetch_actor` or `fetch_provider` failed. */
  datatype FetchError =
    | InvalidReference(cause: RefError)
    | FileLoadingDisabled(artifact: Artifact)
    | ReadFailed(artifact: Artifact, failure: FetcherError)
    | BindleFetchFailed(artifact: Artifact, reference: string, failure: FetcherError)
    | OciFetchFailed(artifact: Artifact, reference: string, failure: FetcherError)

  /** The fetcher a classified reference is handed to, or the file-load gate's
      refusal: local files only when `allowFileLoad` is set; Bindle with the
      authority's credentials; OCI with the authority's credentials and flags;
      anonymous and most restrictive when the authority has no settings. */
  function Dispatch(artifact: Artifact, r: ResourceRef, allowFileLoad: bool,
                    settings: map<string, RegistrySettings>): (c: Result<FetchCall, FetchError>)
    ensures c.Err? <==> r.File? && !allowFileLoad
    ensures c.Err? ==> c.error == FileLoadingDisabled(artifact)
    ensures c.Ok? && c.value.ReadFile? ==> r == File(c.value.path)
    ensures c.Ok? && c.value.FetchBindle? ==> r == Bindle(c.value.reference)
    ensures c.Ok? && c.value.FetchOci? ==> r == Oci(c.value.reference)
  {
    match r
    case File(path) =>
      if allowFileLoad then Ok(ReadFile(path)) else Err(FileLoadingDisabled(artifact))
    case Bindle(id) =>
      (match SettingsFor(id, settings)
       case Some(RegistrySettings(auth, _, _)) => Ok(FetchBindle(id, auth))
       case None => Ok(FetchBindle(id, Anonymous)))
    case Oci(id) =>
      match SettingsFor(id, settings)
      case Some(RegistrySettings(auth, allowLatest, allowInsecure)) =>
        Ok(FetchOci(id, auth, allowLatest, allowInsecure))
      case None => Ok(FetchOci(id, Anonymous, false, false))
  }

  /** OCI fetches use the settings stored under the identifier's authority,
      and anonymous access with neither `latest` nor insecure registries
      allowed when there are none. */
  lemma OciDispatchSettings(artifact: Artifact, id: string, allowFileLoad: bool,
                            settings: map<string, RegistrySettings>)
    ensures forall a :: a in settings && IsAuthorityOf(a, id) ==>
              Dispatch(artifact, Oci(id), allowFileLoad, settings)
              == Ok(FetchOci(id, settings[a].auth, settings[a].allowLatest, settings[a].allowInsecure))
    ensures (forall a :: a in settings ==> !IsAuthorityOf(a, id)) ==>
              Dispatch(artifact, Oci(id), allowFileLoad, settings)
              == Ok(FetchOci(id, Anonymous, false, false))
  {
  }

  /** Bindle fetches take only the credentials of the identifier's authority,
      or go anonymous. */
  lemma BindleDispatchSettings(artifact: Artifact, id: string, allowFileLoad: bool,
                               settings: map<string, RegistrySettings>)
    ensures forall a :: a in settings && IsAuthorityOf(a, id) ==>
              Dispatch(artifact, Bindle(id), allowFileLoad, settings)
              == Ok(FetchBindle(id, settings[a].auth))
    ensures (forall a :: a in settings ==> !IsAuthorityOf(a, id)) ==>
              Dispatch(artifact, Bindle(id), allowFileLoad, settings)
              == Ok(FetchBindle(id, Anonymous))
  {
  }

  /** No registry fetch is ever more permissive than the settings of its
      authority: allowing `latest`, insecure access or non-anonymous
      credentials needs settings that say so. */
  lemma DispatchNeverWidensPolicy(artifact: Artifact, r: ResourceRef, allowFileLoad: bool,
                                  settings: map<string, RegistrySettings>)
    ensures var c := Dispatch(artifact, r, allowFileLoad, settings);
            c.Ok? && c.value.FetchOci? && (c.value.allowLatest || c.value.allowInsecure || c.value.auth != Anonymous) ==>
              exists a :: a in settings && IsAuthorityOf(a, c.value.reference)
                && c.value.auth == settings[a].auth
                && c.value.allowLatest == settings[a].allowLatest
                && c.value.allowInsecure == settings[a].allowInsecure
  {
  }

  /** The classification and dispatch steps, before any I/O. */
  function Plan(artifact: Artifact, reference: string, allowFileLoad: bool,
                settings: map<string, RegistrySettings>,
                parse: string -> Result<Url, ParseError>, toFilePath: Url -> Option<Path>)
    : (c: Result<FetchCall, FetchError>)
    ensures TryFrom(reference, parse, toFilePath).Err? ==>
              c == Err(InvalidReference(TryFrom(reference, parse, toFilePath).error))
    ensures TryFrom(reference, parse, toFilePath).Ok? ==>
              c == Dispatch(artifact, TryFrom(reference, parse, toFilePath).value, allowFileLoad, settings)
    ensures c.Ok? ==> TryFrom(reference, parse, toFilePath).Ok?
  {
    match TryFrom(reference, parse, toFilePath)
    case Err(e) => Err(InvalidReference(e))
    case Ok(r) => Dispatch(artifact, r, allowFileLoad, settings)
  }

  /** A fetcher's failure, with the reference and the kind of source it was
      fetched from. */
  function FetchFailure(artifact: Artifact, call: FetchCall, failure: FetcherError): (e: FetchError)
    ensures (e.ReadFailed? || e.BindleFetchFailed? || e.OciFetchFailed?)
    ensures e.failure == failure && e.artifact == artifact
    ensures call.ReadFile? <==> e.ReadFailed?
    ensures !call.ReadFile? ==> e.reference == call.reference
  {
    match call
    case ReadFile(_) => ReadFailed(artifact, failure)
    case FetchBindle(id, _) => BindleFetchFailed(artifact, id, failure)
    case FetchOci(id, _, _, _) => OciFetchFailed(artifact, id, failure)
  }

  /** `fetch_actor`: classify, gate, dispatch, and call the chosen fetcher
      once. Its bytes are returned unchanged and its failure is reported,
      never swallowed. */
  function FetchActor<B>(actorRef: string, allowFileLoad: bool,
                         settings: map<string, RegistrySettings>,
                         parse: string -> Result<Url, ParseError>, toFilePath: Url -> Option<Path>,
                         fetch: FetchCall -> Result<B, FetcherError>): (r: Result<B, FetchError>)
    ensures var plan := Plan(Actor, actorRef, allowFileLoad, settings, parse, toFilePath);
            && (plan.Err? ==> r == Err(plan.error))
            && (plan.Ok? && fetch(plan.value).Ok? ==> r == Ok(fetch(plan.value).value))
            && (plan.Ok? && fetch(plan.value).Err? ==>
                  r == Err(FetchFailure(Actor, plan.value, fetch(plan.value).error)))
  {
    match Plan(Actor, actorRef, allowFileLoad, settings, parse, toFilePath)
    case Err(e) => Err(e)
    case Ok(call) =>
      match fetch(call)
      case Ok(bytes) => Ok(bytes)
      case Err(e) => Err(FetchFailure(Actor, call, e))
  }

  /** `fetch_provider`: as `fetch_actor`, with the link name passed to
      whichever fetcher is called. */
  function FetchProvider<P>(providerRef: string, linkName: string, allowFileLoad: bool,
                            settings: map<string, RegistrySettings>,
                            parse: string -> Result<Url, ParseError>, toFilePath: Url -> Option<Path>,
                            fetch: (FetchCall, string) -> Result<P, FetcherError>): (r: Result<P, FetchError>)
    ensures var plan := Plan(Provider, providerRef, allowFileLoad, settings, parse, toFilePath);
            && (plan.Err? ==> r == Err(plan.error))
            && (plan.Ok? && fetch(plan.value, linkName).Ok? ==> r == Ok(fetch(plan.value, linkName).value))
            && (plan.Ok? && fetch(plan.value, linkName).Err? ==>
                  r == Err(FetchFailure(Provider, plan.value, fetch(plan.value, linkName).error)))
  {
    match Plan(Provider, providerRef, allowFileLoad, settings, parse, toFilePath)
    case Err(e) => Err(e)
    case Ok(call) =>
      match fetch(call, linkName)
      case Ok(archive) => Ok(archive)
      case Err(e) => Err(FetchFailure(Provider, call, e))
  }

  /** End to end: a bare "host/path" reference that parses once "oci://" is
      put in front of it is fetched from OCI with the settings stored under
      `host`, and a failure of that fetch names the reference. */
  lemma FetchActorBareOci<B>(host: string, path: string, allowFileLoad: bool,
                             settings: map<string, RegistrySettings>,
                             parse: string -> Result<Url, ParseError>,
                             toFilePath: Url -> Option<Path>,
                             fetch: FetchCall -> Result<B, FetcherError>)
    requires '/' !in host && host in settings
    requires parse(host + "/" + path) == Err(RelativeUrlWithoutBase)
    requires parse(OCI_PREFIX + (host + "/" + path)).Ok?
    ensures var id := host + "/" + path;
            var call := FetchOci(id, settings[host].auth, settings[host].allowLatest, settings[host].allowInsecure);
            && Plan(Actor, id, allowFileLoad, settings, parse, toFilePath) == Ok(call)
            && (fetch(call).Ok? ==>
                  FetchActor(id, allowFileLoad, settings, parse, toFilePath, fetch) == Ok(fetch(call).value))
            && (fetch(call).Err? ==>
                  FetchActor(id, allowFileLoad, settings, parse, toFilePath, fetch)
                  == Err(OciFetchFailed(Actor, id, fetch(call).error)))
  {
    var id := host + "/" + path;
    assert IsAuthorityOf(host, id) by { assert host + "/" <= id; }
    OciDispatchSettings(Actor, id, allowFileLoad, settings);
  }

  /** With file loading disabled, a file reference is refused before any
      read: the outcome is the same whatever the file reader would do. */
  lemma FileGateBlocksActorRead<B>(actorRef: string, settings: map<string, RegistrySettings>,
                                   parse: string -> Result<Url, ParseError>,
                                   toFilePath: Url -> Option<Path>,
                                   fetch1: FetchCall -> Result<B, FetcherError>,
                                   fetch2: FetchCall -> Result<B, FetcherError>)
    requires TryFrom(actorRef, parse, toFilePath).Ok? && TryFrom(actorRef, parse, toFilePath).value.File?
    ensures FetchActor(actorRef, false, settings, parse, toFilePath, fetch1) == Err(FileLoadingDisabled(Actor))
    ensures FetchActor(actorRef, false, settings, parse, toFilePath, fetch1)
            == FetchActor(actorRef, false, settings, parse, toFilePath, fetch2)
  {
  }

  /** The same gate for providers: no archive is read. */
  lemma FileGateBlocksProviderRead<P>(providerRef: string, linkName: string,
                                      settings: map<string, RegistrySettings>,
                                      parse: string -> Result<Url, ParseError>,
                                      toFilePath: Url -> Option<Path>,
                                      fetch1: (FetchCall, string) -> Result<P, FetcherError>,
                                      fetch2: (FetchCall, string) -> Result<P, FetcherError>)
    requires TryFrom(providerRef, parse, toFilePath).Ok? && TryFrom(providerRef, parse, toFilePath).value.File?
    ensures FetchProvider(providerRef, linkName, false, settings, parse, toFilePath, fetch1)
            == Err(FileLoadingDisabled(Provider))
    ensures FetchProvider(providerRef, linkName, false, settings, parse, toFilePath, fetch1)
            == FetchProvider(providerRef, linkName, false, settings, parse, toFilePath, fetch2)
  {
  }
}
