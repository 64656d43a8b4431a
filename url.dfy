/**
  The link-service store helpers of internal/backend/url.go: creating and
  reading assets, recording a link activation with the visitor's IP
  anonymised, and the get-else-lookup-and-put of an IP's geolocation.
*/
module Url {
  import opened Wrappers
  import opened Strings
  import opened Backend

  // ----- IP anonymisation -----

  /** The separator anonimizeIP splits on: ':' (rune 58) marks an IPv6 address. */
  function Separator(ip: string): char {
    if ':' in ip then ':' else '.'
  }

  /**
    The inputs anonimizeIP handles: it reads the first three parts, so an
    address with fewer parts makes it index out of range.
  */
  predicate Anonymizable(ip: string) {
    |Split(ip, Separator(ip))| >= 3
  }

  /** The five zero groups an anonymised IPv6 address ends with. */
  function ZeroGroups(): seq<string> {
    ["0000", "0000", "0000", "0000", "0000"]
  }

  /** The parts an anonymised address ends with: five "0000" groups, or one "0" octet. */
  function ZeroParts(ip: string): seq<string> {
    if ':' in ip then ZeroGroups() else ["0"]
  }

  /**
    anonimizeIP: keep three parts, zero the rest in the address family's
    format. The result is the first three parts followed by the family's
    zero parts, joined with the family's separator.
  */
  function AnonymizeIP(ip: string): (r: string)
    requires Anonymizable(ip)
    ensures var parts := Split(ip, Separator(ip));
      r == Join(parts[..3] + ZeroParts(ip), Separator(ip))
  {
    var parts := Split(ip, Separator(ip));
    assert parts[..3] == [parts[0], parts[1], parts[2]];
    if ':' in ip then
      JoinZeroGroups(parts[0], parts[1], parts[2]);
      parts[0] + ":" + parts[1] + ":" + parts[2] + ":0000:0000:0000:0000:0000"
    else
      JoinZeroOctet(parts[0], parts[1], parts[2]);
      parts[0] + "." + parts[1] + "." + parts[2] + ".0"
  }

  lemma JoinZeros()
    ensures Join(ZeroGroups(), ':') == "0000:0000:0000:0000:0000"
  {
    var zeros := ZeroGroups();
    assert Join(zeros[4..], ':') == "0000";
    assert Join(zeros[3..], ':') == "0000:0000";
    assert Join(zeros[2..], ':') == "0000:0000:0000";
    assert Join(zeros[1..], ':') == "0000:0000:0000:0000";
  }

  /** The colon-joined form of three groups followed by the zero groups. */
  lemma JoinZeroGroups(a: string, b: string, c: string)
    ensures Join([a, b, c] + ZeroGroups(), ':') == a + ":" + b + ":" + c + ":0000:0000:0000:0000:0000"
  {
    var zeros := ZeroGroups();
    var groups := [a, b, c] + zeros;
    JoinZeros();
    var tail := "0000:0000:0000:0000:0000";
    assert groups[2..] == [c] + zeros;
    assert Join(groups[2..], ':') == c + ":" + tail;
    assert groups[1..] == [b] + groups[2..];
    assert Join(groups[1..], ':') == b + ":" + (c + ":" + tail);
    assert Join(groups, ':') == a + ":" + (b + ":" + (c + ":" + tail));
  }

  /** The dot-joined form of three octets followed by "0". */
  lemma JoinZeroOctet(a: string, b: string, c: string)
    ensures Join([a, b, c] + ["0"], '.') == a + "." + b + "." + c + ".0"
  {
    var octets := [a, b, c] + ["0"];
    assert octets[1..] == [b, c, "0"];
    assert octets[1..][1..] == [c, "0"];
    assert octets[1..][1..][1..] == ["0"];
    assert Join(octets[1..][1..], '.') == c + "." + "0";
    assert Join(octets[1..], '.') == b + "." + (c + "." + "0");
    assert Join(octets, '.') == a + "." + (b + "." + (c + "." + "0"));
  }

  /** An IPv6 result is the first three groups followed by five "0000" groups. */
  lemma AnonymizeIPv6(ip: string)
    requires ':' in ip && Anonymizable(ip)
    ensures ':' in AnonymizeIP(ip)
    ensures Split(AnonymizeIP(ip), ':') == Split(ip, ':')[..3] + ZeroGroups()
  {
    var p := Split(ip, ':');
    var groups := p[..3] + ZeroGroups();
    SplitJoin(groups, ':');
    assert AnonymizeIP(ip) == p[0] + ":" + p[1] + ":" + p[2] + ":0000:0000:0000:0000:0000";
    assert AnonymizeIP(ip)[|p[0]|] == ':';
  }

  /** An IPv4 result is the first three octets followed by "0", with no ':' added. */
  lemma AnonymizeIPv4(ip: string)
    requires ':' !in ip && Anonymizable(ip)
    ensures ':' !in AnonymizeIP(ip)
    ensures Split(AnonymizeIP(ip), '.') == Split(ip, '.')[..3] + ["0"]
  {
    var p := Split(ip, '.');
    var octets := p[..3] + ["0"];
    SplitJoin(octets, '.');
    SplitKeepsOut(ip, '.', ':');
    assert ':' !in p[0] && ':' !in p[1] && ':' !in p[2];
    assert AnonymizeIP(ip) == p[0] + "." + p[1] + "." + p[2] + ".0";
  }

  /** Anonymising an anonymised address changes nothing. */
  lemma AnonymizeIPIdempotent(ip: string)
    requires Anonymizable(ip)
    ensures Anonymizable(AnonymizeIP(ip))
    ensures AnonymizeIP(AnonymizeIP(ip)) == AnonymizeIP(ip)
  {
    var r := AnonymizeIP(ip);
    if ':' in ip {
      AnonymizeIPv6(ip);
      var p := Split(ip, ':');
      assert Split(r, ':')[..3] == p[..3];
    } else {
      AnonymizeIPv4(ip);
      var p := Split(ip, '.');
      assert Split(r, '.')[..3] == p[..3];
    }
  }

  // ----- assets -----

  /**
    CreateAsset: stamp the creation time with `now` (the clock reading) and
    put the asset under its URI; `putOk` is whether the store accepts the put.
    The caller's asset is stamped whatever the put's outcome.
  */
  method CreateAsset(st: Datastore, asset: Asset, now: int, putOk: bool)
    returns (st': Datastore, asset': Asset, err: Option<Error>)
    ensures asset' == asset.(created := now)
    ensures putOk ==> st' == st.(assets := st.assets[asset.uri := asset']) && err == None
    ensures !putOk ==> st' == st && err == Some(PutFailed)
  {
    asset' := asset.(created := now);
    if putOk {
      st', err := st.(assets := st.assets[asset'.uri := asset']), None;
    } else {
      st', err := st, Some(PutFailed);
    }
  }

  /** GetAsset: the asset stored under the URI, or the store's "no such entity". */
  function GetAsset(st: Datastore, uri: string): Result<Asset, Error> {
    if uri in st.assets then Ok(st.assets[uri]) else Err(NoSuchEntity)
  }

  /** An asset that was created can be read back, stamped with its creation time. */
  method CreateThenGetAsset(st: Datastore, asset: Asset, now: int)
    returns (st': Datastore, got: Result<Asset, Error>)
    ensures got == Ok(asset.(created := now))
    ensures forall uri :: uri != asset.uri ==> GetAsset(st', uri) == GetAsset(st, uri)
  {
    var asset', err;
    st', asset', err := CreateAsset(st, asset, now, true);
    got := GetAsset(st', asset.uri);
  }

  // ----- geolocations -----

  /**
    The geolocation table after CreateGeoLocation(ip). `readOk` is whether
    the store's Get succeeds; the source treats every failed Get as
    "unknown", so a failed read of a known IP also leads to a lookup.
    `lookup` is the geolocation service (None: the call failed) and `putOk`
    whether the store accepts the put.
  */
  function GeoLocationsAfter(geo: map<string, GeoLocation>, ip: string, readOk: bool,
                             lookup: string -> Option<GeoLocation>, putOk: bool)
    : (r: map<string, GeoLocation>)
    // a known location is left alone and no lookup result is used
    ensures readOk && ip in geo ==> r == geo
    // a failed lookup or a rejected put writes nothing
    ensures lookup(ip).None? || !putOk ==> r == geo
    // otherwise the looked-up location is stored under the IP, and only there
    ensures !(readOk && ip in geo) && lookup(ip).Some? && putOk ==>
      r == geo[ip := lookup(ip).value]
    ensures r.Keys == geo.Keys || r.Keys == geo.Keys + {ip}
  {
    if readOk && ip in geo then geo
    else
      match lookup(ip)
      case None => geo
      case Some(l) => if putOk then geo[ip := l] else geo
  }

  /** CreateGeoLocation, with the error it reports. */
  method CreateGeoLocation(st: Datastore, ip: string, readOk: bool,
                           lookup: string -> Option<GeoLocation>, putOk: bool)
    returns (st': Datastore, err: Option<Error>)
    ensures st' == st.(geoLocations := GeoLocationsAfter(st.geoLocations, ip, readOk, lookup, putOk))
    ensures readOk && ip in st.geoLocations ==> err == None
    ensures !(readOk && ip in st.geoLocations) ==>
      err == (if lookup(ip).None? then Some(RemoteCallFailed)
              else if !putOk then Some(PutFailed)
              else None)
    // the get-or-create promise: without an error, the IP has a location
    ensures err == None ==> ip in st'.geoLocations
  {
    if readOk && ip in st.geoLocations {
      return st, None;
    }
    var l := lookup(ip);
    if l.None? {
      return st, Some(RemoteCallFailed);
    }
    if !putOk {
      return st, Some(PutFailed);
    }
    st' := st.(geoLocations := st.geoLocations[ip := l.value]);
    err := None;
  }

  // ----- measurements -----

  /**
    CreateMeasurement: anonymise the visitor's IP in the caller's record,
    create the anonymised IP's geolocation (whose outcome is ignored), then
    append the measurement under a store-chosen key. `geoReadOk`,
    `lookup` and `geoPutOk` drive the geolocation step; `putOk` is whether
    the store accepts the measurement.
  */
  method CreateMeasurement(st: Datastore, m: Measurement, geoReadOk: bool,
                           lookup: string -> Option<GeoLocation>, geoPutOk: bool, putOk: bool)
    returns (st': Datastore, m': Measurement, err: Option<Error>)
    requires Anonymizable(m.ip)
    ensures m' == m.(ip := AnonymizeIP(m.ip))
    // the geolocation step only ever sees the anonymised address
    ensures st'.geoLocations ==
      GeoLocationsAfter(st.geoLocations, m'.ip, geoReadOk, lookup, geoPutOk)
    // the measurement is written whatever happened to the geolocation
    ensures st'.measurements == st.measurements + (if putOk then [m'] else [])
    ensures st' == st.(geoLocations := st'.geoLocations, measurements := st'.measurements)
    ensures err == None <==> putOk
    // what is stored is already anonymous: anonymising it again changes nothing
    ensures Anonymizable(m'.ip) && AnonymizeIP(m'.ip) == m'.ip
  {
    m' := m.(ip := AnonymizeIP(m.ip));
    AnonymizeIPIdempotent(m.ip);
    var geoErr;
    st', geoErr := CreateGeoLocation(st, m'.ip, geoReadOk, lookup, geoPutOk);
    if putOk {
      st' := st'.(measurements := st'.measurements + [m']);
      err := None;
    } else {
      err := Some(PutFailed);
    }
  }
}
