/**
 * The decisions of the example app's data loader (`NextGenDataLoader`): the title
 * registry, how a manifest document URL is resolved to a local file, how `loadTitle`
 * sequences the mandatory manifest and the optional app-data and style documents and
 * which completion calls it makes, the configuration keys it extracts, and the pure
 * hook callbacks (share URL, playback asset, iTunes search term).
 *
 * Everything the loader asks of the outside world (URL parsing, the app bundle, the
 * cache directory, downloads, the manifest parser) is an oracle passed in as a value,
 * so each operation is a decision over already-known outcomes.
 */
module DataLoader {
  import opened Basics

  // ---------------------------------------------------------------------------
  // Errors and the title registry
  // ---------------------------------------------------------------------------

  /** The loader's own errors and the manifest library's errors it reports or passes on. */
  datatype LoadError =
    | TitleNotFound                  // DataLoaderError.titleNotFound
    | FileMissing                    // DataLoaderError.fileMissing
    | ManifestMissing                // NGDMError.manifestMissing
    | MainExperienceMissing          // NGDMError.mainExperienceMissing
    | InMovieExperienceMissing       // NGDMError.inMovieExperienceMissing
    | OutOfMovieExperienceMissing    // NGDMError.outOfMovieExperienceMissing
    | ParserError(reason: string)    // any other error thrown while loading the manifest

  /** The three structural errors the manifest parser raises for a missing experience. */
  predicate IsStructuralError(e: LoadError) {
    e.MainExperienceMissing? || e.InMovieExperienceMissing? || e.OutOfMovieExperienceMissing?
  }

  /** One title's entry: "title", "image", "manifest", "appdata", "cpestyle" to their values. */
  type TitleData = map<string, string>
  type Registry = map<string, TitleData>

  const ManifestKey := "manifest"
  const AppDataKey := "appdata"
  const StyleKey := "cpestyle"

  /** The static registry of supported titles. */
  const ManifestData: Registry := map[
    "man_of_steel" := map[
      "title" := "Man of Steel",
      "image" := "MOS-Onesheet",
      ManifestKey := "https://cpe-manifest.s3.amazonaws.com/xml/urn:dece:cid:eidr-s:DAFF-8AB8-3AF0-FD3A-29EF-Q/mos_manifest-2.3.xml",
      AppDataKey := "https://cpe-manifest.s3.amazonaws.com/xml/urn:dece:cid:eidr-s:DAFF-8AB8-3AF0-FD3A-29EF-Q/mos_appdata-2.3.xml",
      StyleKey := "https://cpe-manifest.s3.amazonaws.com/xml/urn:dece:cid:eidr-s:DAFF-8AB8-3AF0-FD3A-29EF-Q/mos_cpestyle-2.4.xml"
    ]
  ]

  /** `supportsContent`: a content id is supported exactly when the registry holds it. */
  function SupportsContent(cid: string): (b: bool)
    ensures b <==> cid == "man_of_steel"
  {
    cid in ManifestData
  }

  // ---------------------------------------------------------------------------
  // Configuration keys
  // ---------------------------------------------------------------------------

  const TheTakeAPIConfigKey := "thetake_api_key"
  const BaselineAPIConfigKey := "baseline_api_key"
  const GoogleMapsAPIConfigKey := "google_maps_api_key"

  /** A parsed JSON value, as far as the loader inspects it. */
  datatype Json = JString(s: string) | JObject(fields: map<string, Json>) | JOther

  /** `config[key] as? String`: the value at `key` when it is present and a string. */
  function ConfigString(config: map<string, Json>, key: string): (r: Option<string>)
    ensures r.Some? <==> key in config && config[key].JString?
    ensures r.Some? ==> config[key] == JString(r.value)
  {
    if key in config && config[key].JString? then Some(config[key].s) else None
  }

  datatype MapService = AppleMaps | GoogleMaps

  /** The global `NGDMConfiguration` settings that `loadConfig` writes. */
  class Configuration {
    var mapService: MapService
    var googleMapsAPIKey: Option<string>

    constructor (initialService: MapService)
      ensures mapService == initialService && googleMapsAPIKey == None
    {
      mapService := initialService;
      googleMapsAPIKey := None;
    }
  }

  // ---------------------------------------------------------------------------
  // The I/O oracles
  // ---------------------------------------------------------------------------

  /** What the loader learns from Foundation, the app bundle, the cache and the network. */
  datatype Environment = Environment(
    parseUrl: string -> Option<Url>,      // URL(string:)
    bundlePath: string -> Option<string>, // Bundle.main.path(forResource: name, ofType: "xml")
    cacheFileUrl: Url -> Option<Url>,     // NextGenCacheManager.applicationSupportFileURL
    cachedFiles: set<Url>,                // the cache files for which fileExists holds
    download: Url -> Option<Url>          // the local file storeApplicationSupportFile reports
  )

  /** Outcomes of the manifest library's loaders for a given local file path. */
  datatype Parsers = Parsers(
    manifest: string -> Option<LoadError>, // loadManifestXMLFile: None, or the error it throws
    appData: string -> bool,               // loadAppDataXMLFile completed without throwing
    style: string -> bool                  // loadCPEStyleXMLFile completed without throwing
  )

  // ---------------------------------------------------------------------------
  // Resolving one document (loadXMLFile)
  // ---------------------------------------------------------------------------

  const XmlSuffix := ".xml"

  /** `.xml` starts at index `i` of `s`. */
  predicate XmlAt(s: string, i: int) {
    0 <= i && i + 4 <= |s| && s[i..i + 4] == XmlSuffix
  }

  /** `replacingOccurrences(of: ".xml", with: "")`: a left-to-right scan that drops each match. */
  function StripXml(s: string): (r: string)
    ensures |r| <= |s|
    ensures (forall i :: !XmlAt(s, i)) ==> r == s
    decreases |s|
  {
    if |s| >= 4 && s[..4] == XmlSuffix then
      assert XmlAt(s, 0);
      StripXml(s[4..])
    else if s == [] then
      []
    else
      assert forall i :: XmlAt(s[1..], i) ==> XmlAt(s, i + 1);
      [s[0]] + StripXml(s[1..])
  }

  /**
   * Every ".xml" is removed, wherever it stands: stripping a name that contains ".xml"
   * is stripping what comes before it followed by stripping what comes after it. A
   * match can never begin inside `a` and run on into the ".xml", because no proper
   * prefix of ".xml" is also a suffix of it.
   */
  lemma {:induction false} StripXmlSplits(a: string, b: string)
    ensures StripXml(a + XmlSuffix + b) == StripXml(a) + StripXml(b)
    decreases |a|
  {
    var s := a + XmlSuffix + b;
    if |a| >= 4 && a[..4] == XmlSuffix {
      assert s[..4] == XmlSuffix && s[4..] == a[4..] + XmlSuffix + b;
      StripXmlSplits(a[4..], b);
    } else if a == [] {
      assert s[..4] == XmlSuffix && s[4..] == b;
    } else {
      assert s[..4] != XmlSuffix by {
        if |a| < 4 {
          assert s[|a|] == '.';
          assert XmlSuffix[|a|] != '.';
        } else {
          assert s[..4] == a[..4];
        }
      }
      assert s[1..] == a[1..] + XmlSuffix + b;
      StripXmlSplits(a[1..], b);
      assert StripXml(a) == [a[0]] + StripXml(a[1..]);
    }
  }

  /** An appended ".xml" is removed whole: stripping "name.xml" gives the same as stripping "name". */
  lemma StripXmlDropsExtension(name: string)
    ensures StripXml(name + XmlSuffix) == StripXml(name)
  {
    StripXmlSplits(name, []);
    assert name + XmlSuffix + [] == name + XmlSuffix;
  }

  const ManifestBundleDirectory := "Data/Manifests/"

  /** The resource name `loadXMLFile` looks up in the bundle (with type "xml"). */
  function BundleResourceName(fileUrl: Url): (name: string)
    ensures |ManifestBundleDirectory| <= |name| <= |ManifestBundleDirectory| + |fileUrl.lastPathComponent|
    ensures name[..|ManifestBundleDirectory|] == ManifestBundleDirectory
    ensures (forall i :: !XmlAt(fileUrl.lastPathComponent, i)) ==>
              name == ManifestBundleDirectory + fileUrl.lastPathComponent
  {
    ManifestBundleDirectory + StripXml(fileUrl.lastPathComponent)
  }

  /** A manifest file named "x.xml" is looked up in the bundle as "Data/Manifests/x". */
  lemma BundleNameOfXmlFile(fileUrl: Url, stem: string)
    requires fileUrl.lastPathComponent == stem + XmlSuffix
    requires forall i :: !XmlAt(stem, i)
    ensures BundleResourceName(fileUrl) == "Data/Manifests/" + stem
  {
    StripXmlDropsExtension(stem);
  }

  /**
   * A ".xml" inside the file name is removed too: "foo.xml.bak" is looked up in the
   * bundle as "Data/Manifests/foo.bak".
   */
  lemma BundleNameDropsInteriorXml(fileUrl: Url, stem: string, rest: string)
    requires fileUrl.lastPathComponent == stem + XmlSuffix + rest
    requires forall i :: !XmlAt(stem, i)
    requires forall i :: !XmlAt(rest, i)
    ensures BundleResourceName(fileUrl) == "Data/Manifests/" + stem + rest
  {
    StripXmlSplits(stem, rest);
  }

  /**
   * `loadXMLFile`: the local path a document URL resolves to. A bundled copy comes
   * first, then an existing cache file, then a fresh download; every failure is
   * `FileMissing`.
   */
  function LoadXMLFile(env: Environment, filePath: string): (r: Result<string, LoadError>)
    ensures env.parseUrl(filePath).None? ==> r == Failure(FileMissing)
    ensures r.Failure? ==> r.error == FileMissing
    ensures r.Success? ==>
      var fileUrl := env.parseUrl(filePath).value;
      || env.bundlePath(BundleResourceName(fileUrl)) == Some(r.value)
      || (env.cacheFileUrl(fileUrl).Some? && r.value == env.cacheFileUrl(fileUrl).value.path)
      || (env.download(fileUrl).Some? && r.value == env.download(fileUrl).value.path)
  {
    match env.parseUrl(filePath)
    case None => Failure(FileMissing)
    case Some(fileUrl) =>
      match env.bundlePath(BundleResourceName(fileUrl))
      case Some(bundled) => Success(bundled)
      case None =>
        match env.cacheFileUrl(fileUrl)
        case None => Failure(FileMissing)
        case Some(cacheUrl) =>
          if cacheUrl in env.cachedFiles then
            Success(cacheUrl.path)
          else
            match env.download(fileUrl)
            case Some(localFileUrl) => Success(localFileUrl.path)
            case None => Failure(FileMissing)
  }

  /** A bundled copy is returned whatever the cache and the network hold. */
  lemma BundledCopyWins(env: Environment, filePath: string, fileUrl: Url, bundled: string,
                        cacheFileUrl: Url -> Option<Url>, cachedFiles: set<Url>, download: Url -> Option<Url>)
    requires env.parseUrl(filePath) == Some(fileUrl)
    requires env.bundlePath(BundleResourceName(fileUrl)) == Some(bundled)
    ensures LoadXMLFile(env, filePath) == Success(bundled)
    ensures LoadXMLFile(env.(cacheFileUrl := cacheFileUrl, cachedFiles := cachedFiles, download := download), filePath)
      == Success(bundled)
  {
  }

  /** Without a bundled copy, an existing cache file is returned whatever the network does. */
  lemma CachedCopyBeforeDownload(env: Environment, filePath: string, fileUrl: Url, cacheUrl: Url, download: Url -> Option<Url>)
    requires env.parseUrl(filePath) == Some(fileUrl)
    requires env.bundlePath(BundleResourceName(fileUrl)).None?
    requires env.cacheFileUrl(fileUrl) == Some(cacheUrl) && cacheUrl in env.cachedFiles
    ensures LoadXMLFile(env, filePath) == Success(cacheUrl.path)
    ensures LoadXMLFile(env.(download := download), filePath) == Success(cacheUrl.path)
  {
  }

  /** With neither a bundled nor a cached copy, the outcome is the download's. */
  lemma DownloadIsLastResort(env: Environment, filePath: string, fileUrl: Url, cacheUrl: Url)
    requires env.parseUrl(filePath) == Some(fileUrl)
    requires env.bundlePath(BundleResourceName(fileUrl)).None?
    requires env.cacheFileUrl(fileUrl) == Some(cacheUrl) && cacheUrl !in env.cachedFiles
    ensures env.download(fileUrl).None? ==> LoadXMLFile(env, filePath) == Failure(FileMissing)
    ensures env.download(fileUrl).Some? ==> LoadXMLFile(env, filePath) == Success(env.download(fileUrl).value.path)
  {
  }

  /** Without a bundled copy and without a cache location the document is missing, even if a download would work. */
  lemma NoCacheLocationIsMissing(env: Environment, filePath: string, fileUrl: Url)
    requires env.parseUrl(filePath) == Some(fileUrl)
    requires env.bundlePath(BundleResourceName(fileUrl)).None?
    requires env.cacheFileUrl(fileUrl).None?
    ensures LoadXMLFile(env, filePath) == Failure(FileMissing)
  {
  }

  // ---------------------------------------------------------------------------
  // Joining the optional documents
  // ---------------------------------------------------------------------------

  /**
   * `when(fulfilled:)`: all values in order when every promise is fulfilled, otherwise a
   * rejection (the earliest one in the array; timing is not modelled).
   */
  function WhenFulfilled<T, E>(promises: seq<Result<T, E>>): (r: Result<seq<T>, E>)
    ensures r.Success? <==> forall i :: 0 <= i < |promises| ==> promises[i].Success?
    ensures r.Success? ==> |r.value| == |promises|
    ensures r.Success? ==> forall i :: 0 <= i < |promises| ==> r.value[i] == promises[i].value
    ensures r.Failure? ==> exists i :: 0 <= i < |promises| && promises[i] == Failure(r.error)
  {
    if promises == [] then
      Success([])
    else
      match promises[0]
      case Failure(e) => Failure(e)
      case Success(v) =>
        match WhenFulfilled(promises[1..])
        case Failure(e) => Failure(e)
        case Success(vs) => Success([v] + vs)
  }

  /** The app-data and style file paths read back from the joined results. */
  datatype OptionalPaths = OptionalPaths(appData: Option<string>, style: Option<string>)

  /** The positional unpacking of the joined results: app data first when declared, style last. */
  function UnpackOptional(hasAppData: bool, results: seq<string>): (r: OptionalPaths)
    ensures hasAppData ==> r.appData == First(results)
    ensures hasAppData ==> r.style == (if |results| > 1 then Some(results[|results| - 1]) else None)
    ensures !hasAppData ==> r.appData == None && r.style == First(results)
  {
    if hasAppData then
      OptionalPaths(First(results), if |results| > 1 then Last(results) else None)
    else
      OptionalPaths(None, First(results))
  }

  /** The promises for the optional documents the title declares: app data, then style. */
  function OptionalPromises(titleData: TitleData, env: Environment): (ps: seq<Result<string, LoadError>>)
    ensures |ps| == (if AppDataKey in titleData then 1 else 0) + (if StyleKey in titleData then 1 else 0)
    ensures AppDataKey in titleData ==> ps[0] == LoadXMLFile(env, titleData[AppDataKey])
    ensures StyleKey in titleData ==> ps[|ps| - 1] == LoadXMLFile(env, titleData[StyleKey])
  {
    (if AppDataKey in titleData then [LoadXMLFile(env, titleData[AppDataKey])] else [])
    + (if StyleKey in titleData then [LoadXMLFile(env, titleData[StyleKey])] else [])
  }

  /** When every declared document resolves, each is paired with its own resolved path and an undeclared one with none. */
  lemma UnpackPairsEachDocumentWithItsPath(titleData: TitleData, env: Environment, results: seq<string>)
    requires WhenFulfilled(OptionalPromises(titleData, env)) == Success(results)
    ensures var paths := UnpackOptional(AppDataKey in titleData, results);
      && (AppDataKey in titleData ==> Success(paths.appData.value) == LoadXMLFile(env, titleData[AppDataKey]))
      && (AppDataKey !in titleData ==> paths.appData == None)
      && (StyleKey in titleData ==> Success(paths.style.value) == LoadXMLFile(env, titleData[StyleKey]))
      && (StyleKey !in titleData ==> paths.style == None)
  {
  }

  // ---------------------------------------------------------------------------
  // loadTitle
  // ---------------------------------------------------------------------------

  /** One call of the caller's `completion(success, error)`. */
  datatype Completion = Completion(success: bool, error: Option<LoadError>)

  /** A document loaded into the shared manifest, with the local file it came from. */
  datatype Document = ManifestDocument(path: string) | AppDataDocument(path: string) | StyleDocument(path: string)

  /**
   * What one `loadTitle` call does once every promise has settled: the document URLs
   * it resolved, in order, the documents it loaded into the shared manifest, in order,
   * and the completion calls it made, in order.
   */
  datatype TitleRun = TitleRun(fetched: seq<string>, loaded: seq<Document>, completions: seq<Completion>)

  const Succeeded := Completion(true, None)

  /** The optional-document branch (after the manifest has resolved): which URLs, which loads, which completion. */
  function OptionalDocuments(titleData: TitleData, env: Environment, parsers: Parsers): (run: TitleRun)
    ensures |run.completions| <= 1
    ensures run.completions == [] || run.completions == [Succeeded]
  {
    var fetched := (if AppDataKey in titleData then [titleData[AppDataKey]] else [])
      + (if StyleKey in titleData then [titleData[StyleKey]] else []);
    var promises := OptionalPromises(titleData, env);
    if |promises| == 0 then
      TitleRun(fetched, [], [Succeeded])
    else
      match WhenFulfilled(promises)
      case Failure(_) => TitleRun(fetched, [], [])
      case Success(results) =>
        var paths := UnpackOptional(AppDataKey in titleData, results);
        var appData := if paths.appData.Some? && parsers.appData(paths.appData.value)
          then [AppDataDocument(paths.appData.value)] else [];
        var style := if paths.style.Some? && parsers.style(paths.style.value)
          then [StyleDocument(paths.style.value)] else [];
        TitleRun(fetched, appData + style, [Succeeded])
  }

  /** The promise chain started once the title has a manifest URL. */
  function ManifestChain(titleData: TitleData, env: Environment, parsers: Parsers): (run: TitleRun)
    requires ManifestKey in titleData
    ensures |run.fetched| >= 1 && run.fetched[0] == titleData[ManifestKey]
    ensures |run.completions| <= 2
  {
    var manifestUrl := titleData[ManifestKey];
    match LoadXMLFile(env, manifestUrl)
    case Failure(e) => TitleRun([manifestUrl], [], [Completion(false, Some(e))])
    case Success(localFilePath) =>
      var parseError := parsers.manifest(localFilePath);
      var reported := if parseError.Some? then [Completion(false, parseError)] else [];
      var loaded := if parseError.None? then [ManifestDocument(localFilePath)] else [];
      var rest := OptionalDocuments(titleData, env, parsers);
      TitleRun([manifestUrl] + rest.fetched, loaded + rest.loaded, reported + rest.completions)
  }

  /**
   * The outcome of `loadTitle(id:completion:)` against a registry: a synchronous throw,
   * or the run of its promise chain.
   */
  function TitleOutcome(registry: Registry, id: string, env: Environment, parsers: Parsers): (r: Result<TitleRun, LoadError>)
    ensures id !in registry ==> r == Failure(TitleNotFound)
    ensures id in registry && ManifestKey !in registry[id] ==> r == Failure(ManifestMissing)
    ensures r.Success? <==> id in registry && ManifestKey in registry[id]
    ensures r.Success? ==> |r.value.fetched| >= 1 && r.value.fetched[0] == registry[id][ManifestKey]
  {
    if id !in registry then
      Failure(TitleNotFound)
    else if ManifestKey !in registry[id] then
      Failure(ManifestMissing)
    else
      Success(ManifestChain(registry[id], env, parsers))
  }

  /** A title loads (does not throw) from the shipped registry exactly when it is supported. */
  lemma ShippedTitlesLoad(id: string, env: Environment, parsers: Parsers)
    ensures TitleOutcome(ManifestData, id, env, parsers).Success? <==> SupportsContent(id)
    ensures TitleOutcome(ManifestData, id, env, parsers).Failure? ==>
      TitleOutcome(ManifestData, id, env, parsers).error == TitleNotFound
  {
  }

  /** A rejected manifest fetch reaches the outer catch: one failed completion, nothing loaded, nothing else fetched. */
  lemma ManifestFetchRejected(titleData: TitleData, env: Environment, parsers: Parsers, e: LoadError)
    requires ManifestKey in titleData
    requires LoadXMLFile(env, titleData[ManifestKey]) == Failure(e)
    ensures ManifestChain(titleData, env, parsers)
      == TitleRun([titleData[ManifestKey]], [], [Completion(false, Some(e))])
    ensures e == FileMissing
  {
  }

  /** Any error thrown while loading the manifest (structural or not) is reported unchanged, first. */
  lemma ManifestErrorReported(titleData: TitleData, env: Environment, parsers: Parsers, path: string, e: LoadError)
    requires ManifestKey in titleData
    requires LoadXMLFile(env, titleData[ManifestKey]) == Success(path)
    requires parsers.manifest(path) == Some(e)
    ensures var run := ManifestChain(titleData, env, parsers);
      |run.completions| >= 1 && run.completions[0] == Completion(false, Some(e))
      && (forall d :: d in run.loaded ==> !d.ManifestDocument?)
  {
  }

  /**
   * The catch blocks do not return: after a structural error the chain still resolves
   * the optional documents, and when they all resolve the caller also hears success.
   */
  lemma StructuralErrorThenSuccess(titleData: TitleData, env: Environment, parsers: Parsers, path: string, e: LoadError)
    requires ManifestKey in titleData
    requires LoadXMLFile(env, titleData[ManifestKey]) == Success(path)
    requires parsers.manifest(path) == Some(e) && IsStructuralError(e)
    requires forall i :: 0 <= i < |OptionalPromises(titleData, env)| ==> OptionalPromises(titleData, env)[i].Success?
    ensures ManifestChain(titleData, env, parsers).completions == [Completion(false, Some(e)), Succeeded]
  {
  }

  /** With no optional document declared, success is signalled directly after the manifest. */
  lemma NoOptionalDocuments(titleData: TitleData, env: Environment, parsers: Parsers, path: string)
    requires ManifestKey in titleData && AppDataKey !in titleData && StyleKey !in titleData
    requires LoadXMLFile(env, titleData[ManifestKey]) == Success(path)
    requires parsers.manifest(path).None?
    ensures ManifestChain(titleData, env, parsers)
      == TitleRun([titleData[ManifestKey]], [ManifestDocument(path)], [Succeeded])
  {
  }

  /** Failures while parsing the optional documents are swallowed: they never change the completion calls. */
  lemma OptionalParseErrorsSwallowed(titleData: TitleData, env: Environment, parsers: Parsers,
                                     appData: string -> bool, style: string -> bool)
    requires ManifestKey in titleData
    ensures ManifestChain(titleData, env, parsers).completions
         == ManifestChain(titleData, env, parsers.(appData := appData, style := style)).completions
  {
  }

  /** If a declared optional document cannot be resolved, the discarded join fires no completion. */
  lemma OptionalRejectionIsSilent(titleData: TitleData, env: Environment, parsers: Parsers, path: string, k: nat)
    requires ManifestKey in titleData
    requires LoadXMLFile(env, titleData[ManifestKey]) == Success(path)
    requires k < |OptionalPromises(titleData, env)| && OptionalPromises(titleData, env)[k].Failure?
    ensures var run := ManifestChain(titleData, env, parsers);
      Succeeded !in run.completions
      && run.completions == (if parsers.manifest(path).Some? then [Completion(false, parsers.manifest(path))] else [])
  {
  }

  /** The caller hears success exactly when the manifest and every declared optional document resolve. */
  lemma SuccessSignalledIffAllResolve(titleData: TitleData, env: Environment, parsers: Parsers)
    requires ManifestKey in titleData
    ensures Succeeded in ManifestChain(titleData, env, parsers).completions <==>
      LoadXMLFile(env, titleData[ManifestKey]).Success? &&
      forall i :: 0 <= i < |OptionalPromises(titleData, env)| ==> OptionalPromises(titleData, env)[i].Success?
  {
  }

  /** A manifest that loads, with every optional document resolving, gives exactly one completion: success. */
  lemma CleanLoadCompletesOnce(titleData: TitleData, env: Environment, parsers: Parsers, path: string)
    requires ManifestKey in titleData
    requires LoadXMLFile(env, titleData[ManifestKey]) == Success(path)
    requires parsers.manifest(path).None?
    requires forall i :: 0 <= i < |OptionalPromises(titleData, env)| ==> OptionalPromises(titleData, env)[i].Success?
    ensures var run := ManifestChain(titleData, env, parsers);
      run.completions == [Succeeded] && run.loaded[0] == ManifestDocument(path)
  {
  }

  // ---------------------------------------------------------------------------
  // The loader object
  // ---------------------------------------------------------------------------

  class Loader {
    var productAPIUtilKey: Option<string>
    var talentAPIUtilKey: Option<string>

    constructor ()
      ensures productAPIUtilKey == None && talentAPIUtilKey == None
    {
      productAPIUtilKey := None;
      talentAPIUtilKey := None;
    }

    /**
     * `loadConfig`: `configFile` is the parsed configuration file, or None when the file
     * is missing or cannot be read or parsed. Only a dictionary is inspected; both API
     * keys are then overwritten (with None when absent), and a Google Maps key switches
     * the map service.
     */
    method LoadConfig(configFile: Option<Json>, settings: Configuration)
      modifies this, settings
      ensures configFile.Some? && configFile.value.JObject? ==>
        var config := configFile.value.fields;
        && productAPIUtilKey == ConfigString(config, TheTakeAPIConfigKey)
        && talentAPIUtilKey == ConfigString(config, BaselineAPIConfigKey)
        && (ConfigString(config, GoogleMapsAPIConfigKey).Some? ==>
              settings.mapService == GoogleMaps && settings.googleMapsAPIKey == ConfigString(config, GoogleMapsAPIConfigKey))
        && (ConfigString(config, GoogleMapsAPIConfigKey).None? ==> unchanged(settings))
      ensures !(configFile.Some? && configFile.value.JObject?) ==> unchanged(this) && unchanged(settings)
    {
      if configFile.Some? && configFile.value.JObject? {
        var config := configFile.value.fields;
        productAPIUtilKey := ConfigString(config, TheTakeAPIConfigKey);
        talentAPIUtilKey := ConfigString(config, BaselineAPIConfigKey);
        var googleKey := ConfigString(config, GoogleMapsAPIConfigKey);
        if googleKey.Some? {
          settings.mapService := GoogleMaps;
          settings.googleMapsAPIKey := googleKey;
        }
      }
    }

    /**
     * `loadTitle(id:completion:)` against `registry` (the app passes `ManifestData`),
     * run to the end of its promise chain with every I/O outcome taken from `env` and
     * `parsers`.
     */
    method LoadTitle(registry: Registry, id: string, env: Environment, parsers: Parsers)
      returns (r: Result<TitleRun, LoadError>)
      ensures r == TitleOutcome(registry, id, env, parsers)
    {
      if id !in registry {
        return Failure(TitleNotFound);
      }
      var titleData := registry[id];
      if ManifestKey !in titleData {
        return Failure(ManifestMissing);
      }
      var manifestXMLPath := titleData[ManifestKey];
      var fetched := [manifestXMLPath];
      var loaded: seq<Document> := [];
      var completions: seq<Completion> := [];

      var manifest := LoadXMLFile(env, manifestXMLPath);
      if manifest.Failure? {
        // the outer catch
        completions := completions + [Completion(false, Some(manifest.error))];
        assert completions == [Completion(false, Some(manifest.error))];
        return Success(TitleRun(fetched, loaded, completions));
      }
      var localFilePath := manifest.value;
      var parseError := parsers.manifest(localFilePath);
      if parseError.Some? {
        completions := completions + [Completion(false, parseError)];
      } else {
        loaded := loaded + [ManifestDocument(localFilePath)];
      }

      var promises: seq<Result<string, LoadError>> := [];
      var hasAppData := false;
      if AppDataKey in titleData {
        fetched := fetched + [titleData[AppDataKey]];
        promises := promises + [LoadXMLFile(env, titleData[AppDataKey])];
        hasAppData := true;
      }
      if StyleKey in titleData {
        fetched := fetched + [titleData[StyleKey]];
        promises := promises + [LoadXMLFile(env, titleData[StyleKey])];
      }

      assert promises == OptionalPromises(titleData, env);
      ghost var rest := OptionalDocuments(titleData, env, parsers);
      assert fetched == [manifestXMLPath] + rest.fetched;
      ghost var before := loaded;
      ghost var reported := completions;
      if |promises| > 0 {
        var joined := WhenFulfilled(promises);
        if joined.Success? {
          var results := joined.value;
          var appDataFilePath: Option<string> := None;
          var cpeStyleFilePath: Option<string> := None;
          if hasAppData {
            appDataFilePath := First(results);
            if |results| > 1 {
              cpeStyleFilePath := Last(results);
            }
          } else {
            cpeStyleFilePath := First(results);
          }
          if appDataFilePath.Some? && parsers.appData(appDataFilePath.value) {
            loaded := loaded + [AppDataDocument(appDataFilePath.value)];
          }
          if cpeStyleFilePath.Some? && parsers.style(cpeStyleFilePath.value) {
            loaded := loaded + [StyleDocument(cpeStyleFilePath.value)];
          }
          completions := completions + [Succeeded];
          assert UnpackOptional(hasAppData, results) == OptionalPaths(appDataFilePath, cpeStyleFilePath);
        }
      } else {
        completions := completions + [Succeeded];
      }
      assert loaded == before + rest.loaded;
      assert completions == reported + rest.completions;
      assert before == if parseError.None? then [ManifestDocument(localFilePath)] else [];
      assert reported == if parseError.Some? then [Completion(false, parseError)] else [];
      assert ManifestChain(titleData, env, parsers) == TitleRun(fetched, loaded, completions);
      return Success(TitleRun(fetched, loaded, completions));
    }
  }

  // ---------------------------------------------------------------------------
  // Hook callbacks
  // ---------------------------------------------------------------------------

  datatype SharedContentType = Image | Video

  const ShareHost := "your-domain.com"
  const ImageSharePath := "/share/images"
  const VideoSharePath := "/share/videos"

  /** The share URL text for an item: host, a path chosen by the item's type, then the id. */
  function SharedContentUrl(id: string, contentType: SharedContentType): (s: string)
    ensures ShareHost <= s && |s| > |ShareHost| && s[|ShareHost|] == '/'
    ensures |s| >= |id| && s[|s| - |id|..] == id
  {
    ShareHost + (if contentType == Image then ImageSharePath else VideoSharePath) + "/" + id
  }

  /** Reads the item type and id back from a share URL text. */
  function ParseSharedContentUrl(s: string): (r: Option<(SharedContentType, string)>)
    ensures r.Some? ==> SharedContentUrl(r.value.1, r.value.0) == s
  {
    var imagePrefix := ShareHost + ImageSharePath + "/";
    var videoPrefix := ShareHost + VideoSharePath + "/";
    if imagePrefix <= s then
      assert s == imagePrefix + s[|imagePrefix|..];
      Some((Image, s[|imagePrefix|..]))
    else if videoPrefix <= s then
      assert s == videoPrefix + s[|videoPrefix|..];
      Some((Video, s[|videoPrefix|..]))
    else
      None
  }

  /**
   * `urlForSharedContent(id:type:)`: builds the text handed to `URL(string:)`, piece by
   * piece; the item's type and id can be read back from it.
   */
  method UrlForSharedContent(id: string, contentType: SharedContentType) returns (shareUrl: string)
    ensures shareUrl == SharedContentUrl(id, contentType)
    ensures ParseSharedContentUrl(shareUrl) == Some((contentType, id))
  {
    shareUrl := ShareHost;
    if contentType == Image {
      shareUrl := shareUrl + ImageSharePath;
    } else {
      shareUrl := shareUrl + VideoSharePath;
    }
    shareUrl := shareUrl + "/" + id;
    SharedContentUrlRoundTrip(id, contentType);
  }

  /** The share URL determines the item: parsing it gives back the type and the id. */
  lemma SharedContentUrlRoundTrip(id: string, contentType: SharedContentType)
    ensures ParseSharedContentUrl(SharedContentUrl(id, contentType)) == Some((contentType, id))
  {
    var s := SharedContentUrl(id, contentType);
    var imagePrefix := ShareHost + ImageSharePath + "/";
    var videoPrefix := ShareHost + VideoSharePath + "/";
    if contentType == Image {
      assert s == imagePrefix + id;
      assert s[|imagePrefix|..] == id;
    } else {
      assert s == videoPrefix + id;
      assert !(imagePrefix <= s) by {
        assert s[22] == 'v' && imagePrefix[22] == 'i';
      }
      assert s[|videoPrefix|..] == id;
    }
  }

  /** How the player is being used (`VideoPlayerMode`). */
  datatype VideoPlayerMode = MainFeature | Supplemental | SupplementalInMovie | BasicPlayer

  /** The asset handed back to the player (`NextGenExamplePlaybackAsset`). */
  datatype PlaybackAsset = PlaybackAsset(id: string, url: Url, title: Option<string>, imageUrl: Option<Url>)

  /** The demo stream that stands in for the DRM-protected main feature. */
  const DemoFeatureUrl := Url(
    "http://pdl.warnerbros.com/digitalcopy2/s/bbb/big_buck_bunny_480p_h264.mov",
    "/digitalcopy2/s/bbb/big_buck_bunny_480p_h264.mov",
    "big_buck_bunny_480p_h264.mov")
  const DemoFeatureTitle := "Big Buck Bunny"

  /**
   * `playbackAsset(withURL:title:imageURL:forMode:)`: the asset keeps the requested URL
   * as its id; only the main feature is substituted by the demo stream.
   */
  function PlaybackAssetFor(url: Url, title: Option<string>, imageUrl: Option<Url>, mode: VideoPlayerMode): (a: PlaybackAsset)
    ensures a.id == url.absoluteString
    ensures mode == MainFeature ==> a.url == DemoFeatureUrl && a.title == Some(DemoFeatureTitle) && a.imageUrl == None
    ensures mode != MainFeature ==> a.url == url && a.title == title && a.imageUrl == imageUrl
  {
    if mode == MainFeature then
      PlaybackAsset(url.absoluteString, DemoFeatureUrl, Some(DemoFeatureTitle), None)
    else
      PlaybackAsset(url.absoluteString, url, title, imageUrl)
  }

  const ITunesSearchPrefix := "https://itunes.apple.com/search?media=movie&entity=movie&term="

  /** `title.replacingOccurrences(of: " ", with: "+")`: spaces become '+', everything else stays. */
  function SearchTerm(title: string): (term: string)
    ensures |term| == |title|
    ensures forall i :: 0 <= i < |title| ==> term[i] == (if title[i] == ' ' then '+' else title[i])
  {
    if title == [] then [] else [if title[0] == ' ' then '+' else title[0]] + SearchTerm(title[1..])
  }

  /** The iTunes search URL text used by the filmography hook: no space survives in the term. */
  function FilmographySearchUrl(title: string): (s: string)
    ensures ITunesSearchPrefix <= s && s[|ITunesSearchPrefix|..] == SearchTerm(title)
    ensures forall i :: |ITunesSearchPrefix| <= i < |s| ==> s[i] != ' '
  {
    ITunesSearchPrefix + SearchTerm(title)
  }
}
