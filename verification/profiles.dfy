/** Registered profiles: `register` and `_normalize_profile` in streamer/camera.py. */
module Profiles {
  import opened Options
  import Text

  /** A member of a JSON object: missing, null, or a value. */
  datatype Field<+T> = Absent | Null | Value(value: T)

  /** What a client posts, and what is on disk. */
  datatype Config = Config(
    sourceType: Field<string>, ip: Field<string>, username: Field<string>, password: Field<string>,
    rtspPort: Field<int>, onvifPort: Field<int>, path: Field<string>)

  /** A complete profile of an RTSP camera, the only source type there is. */
  datatype Profile = Profile(
    ip: string, username: string, password: string, rtspPort: int, onvifPort: Option<int>, path: string)

  const RTSP_CAMERA := "rtsp_camera"

  datatype Fault = Unsupported | Required(field: string)

  const NOTHING := Config(Absent, Absent, Absent, Absent, Absent, Absent, Absent)

  function Truthy(f: Field<string>): bool {
    f.Value? && f.value != ""
  }

  function SourceType(config: Config, existing: Config): string {
    var raw := if Truthy(config.sourceType) then config.sourceType.value
               else if Truthy(existing.sourceType) then existing.sourceType.value
               else RTSP_CAMERA;
    var value := Text.Strip(raw);
    if value == "" then RTSP_CAMERA else value
  }

  /** `str(config.get(key, existing.get(key, "")))`: a null that is present reads as the word None. */
  function Written(config: Field<string>, existing: Field<string>): string {
    match config
    case Value(value) => value
    case Null => "None"
    case Absent =>
      match existing
      case Value(value) => value
      case Null => "None"
      case Absent => ""
  }

  function Coalesced<T>(config: Field<T>, existing: Field<T>, default: T): T {
    if config.Value? then config.value else if existing.Value? then existing.value else default
  }

  function Password(config: Config, existing: Config): Field<string> {
    if !Truthy(config.password) && Truthy(existing.password) then existing.password else config.password
  }

  function OptionalPort(config: Field<int>, existing: Field<int>): Option<int> {
    var chosen := if config.Absent? then existing else config;
    if chosen.Value? then Some(chosen.value) else None
  }

  function Normalised(config: Config, existing: Config): Result<Profile, Fault> {
    if SourceType(config, existing) != RTSP_CAMERA then
      Err(Unsupported)
    else
      var ip := Text.Strip(Written(config.ip, existing.ip));
      var username := Text.Strip(Written(config.username, existing.username));
      var password := Password(config, existing);
      if ip == "" then Err(Required("ip"))
      else if username == "" then Err(Required("username"))
      else if !password.Value? || Text.Strip(password.value) == "" then Err(Required("password"))
      else
        Ok(Profile(ip, username, password.value, Coalesced(config.rtspPort, existing.rtspPort, 554),
                   OptionalPort(config.onvifPort, existing.onvifPort),
                   Text.Strip(Coalesced(config.path, existing.path, "stream1"))))
  }

  /** The profile as it is written to disk; every member is present. */
  function Stored(p: Profile): Config {
    Config(Value(RTSP_CAMERA), Value(p.ip), Value(p.username), Value(p.password), Value(p.rtspPort),
           if p.onvifPort.Some? then Value(p.onvifPort.value) else Null, Value(p.path))
  }

  /** `register`: a fault leaves the slot alone. */
  function Registered(slot: Option<Config>, config: Config): Option<Config> {
    match Normalised(config, if slot.Some? then slot.value else NOTHING)
    case Err(_) => slot
    case Ok(profile) => Some(Stored(profile))
  }

  // ── Laws ──

  /** A start promotes what was registered, unchanged. */
  lemma RegisteredIsPromotedVerbatim(config: Config, existing: Config)
    requires Normalised(config, existing).Ok?
    ensures var stored := Stored(Normalised(config, existing).result);
            Normalised(stored, stored) == Normalised(config, existing)
  {
    Text.StripTwice(Written(config.ip, existing.ip));
    Text.StripTwice(Written(config.username, existing.username));
    Text.StripTwice(Coalesced(config.path, existing.path, "stream1"));
    assert Text.Strip(RTSP_CAMERA) == RTSP_CAMERA;
  }

  /** Registering again without the password, or with an empty one, keeps the password on file. */
  lemma PasswordIsKept(p: Profile, config: Config)
    requires !Truthy(config.password) && Text.Strip(p.password) != "" && Normalised(config, Stored(p)).Ok?
    ensures Normalised(config, Stored(p)).result.password == p.password
  {
  }

  /** A profile as normalisation leaves it. */
  predicate Sound(p: Profile) {
    && Text.Strip(p.ip) == p.ip != "" && Text.Strip(p.username) == p.username != ""
    && Text.Strip(p.password) != "" && Text.Strip(p.path) == p.path
  }

  /** Registering a sound profile in full stores just that, whatever was there. */
  lemma SoundIsNormal(p: Profile, existing: Config)
    requires Sound(p)
    ensures Normalised(Stored(p), existing) == Ok(p)
  {
    assert Text.Strip(RTSP_CAMERA) == RTSP_CAMERA;
  }

  /** The slot after any number of registrations. */
  function RegisteredAll(slot: Option<Config>, configs: seq<Config>): Option<Config>
    decreases |configs|
  {
    if configs == [] then slot else RegisteredAll(Registered(slot, configs[0]), configs[1..])
  }

  /** However often a client registers without a password, the one on file stays. */
  lemma {:induction false} PasswordSurvivesRegistrations(p: Profile, configs: seq<Config>)
    requires Text.Strip(p.password) != "" && forall config | config in configs :: !Truthy(config.password)
    ensures var slot := RegisteredAll(Some(Stored(p)), configs);
            slot.Some? && slot.value.password == Value(p.password)
    decreases |configs|
  {
    if configs == [] {
    } else {
      assert configs[0] in configs;
      match Normalised(configs[0], Stored(p))
      case Err(_) => PasswordSurvivesRegistrations(p, configs[1..]);
      case Ok(next) =>
        PasswordIsKept(p, configs[0]);
        PasswordSurvivesRegistrations(next, configs[1..]);
    }
  }

  /** A text that stripping leaves alone, and that is not empty. */
  predicate Plain(text: string) {
    text != "" && Text.Strip(text) == text
  }

  function Or<T>(field: Field<T>, other: T): T {
    if field.Value? then field.value else other
  }

  /**
   Registering over a profile replaces what is sent and keeps what is not, an empty password among
   that; only the ONVIF port can be taken back, with a null.
   */
  lemma OverwritesWhatIsSent(p: Profile, config: Config)
    requires Sound(p) && config.sourceType in [Absent, Null, Value(RTSP_CAMERA)]
    requires config.ip.Absent? || (config.ip.Value? && Plain(config.ip.value))
    requires config.username.Absent? || (config.username.Value? && Plain(config.username.value))
    requires Truthy(config.password) ==> Text.Strip(config.password.value) != ""
    requires config.path.Value? ==> Text.Strip(config.path.value) == config.path.value
    ensures Normalised(config, Stored(p)) == Ok(
              Profile(Or(config.ip, p.ip), Or(config.username, p.username),
                      if Truthy(config.password) then config.password.value else p.password,
                      Or(config.rtspPort, p.rtspPort),
                      match config.onvifPort
                      case Value(port) => Some(port)
                      case Null => None
                      case Absent => p.onvifPort,
                      Or(config.path, p.path)))
  {
    assert Text.Strip(RTSP_CAMERA) == RTSP_CAMERA;
    assert Text.Strip("") == "";
  }

  /** A first registration needs an address, a name and a password that are not blank; the rest has defaults. */
  lemma FirstRegistration(config: Config)
    requires config.sourceType.Absent? && !config.ip.Null? && !config.username.Null?
    requires config.path.Value? ==> Text.Strip(config.path.value) == config.path.value
    ensures var said := (f: Field<string>) => f.Value? && Text.Strip(f.value) != "";
            var result := Normalised(config, NOTHING);
            if !said(config.ip) then result == Err(Required("ip"))
            else if !said(config.username) then result == Err(Required("username"))
            else if !said(config.password) then result == Err(Required("password"))
            else result == Ok(
              Profile(Text.Strip(config.ip.value), Text.Strip(config.username.value), config.password.value,
                      Or(config.rtspPort, 554),
                      if config.onvifPort.Value? then Some(config.onvifPort.value) else None,
                      Or(config.path, "stream1")))
  {
    assert Text.Strip(RTSP_CAMERA) == RTSP_CAMERA;
    assert Text.Strip("stream1") == "stream1" && Text.Strip("") == "";
  }

  /** No other source type is taken, and a registration that is refused leaves the slot alone. */
  lemma RefusedRegistration(slot: Option<Config>, config: Config)
    requires config.sourceType.Value? && Text.Strip(config.sourceType.value) !in ["", RTSP_CAMERA]
    ensures Registered(slot, config) == slot
  {
    assert Text.Strip("") == "";
  }

  /** A null for the address or the name is not refused: it is read as the word None. */
  lemma NullIsReadAsAWord(p: Profile)
    requires Sound(p)
    ensures Normalised(NOTHING.(ip := Null), Stored(p)) == Ok(p.(ip := "None"))
    ensures Normalised(NOTHING.(username := Null), Stored(p)) == Ok(p.(username := "None"))
  {
    assert Text.Strip(RTSP_CAMERA) == RTSP_CAMERA;
    assert Text.Strip("None") == "None";
  }
}
