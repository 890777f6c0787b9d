/** The project aggregate: construction from properties (id, port, status,
    repository URL, description defaults), the DTO projection, the canonical
    video URL and the text of the `.env` file a set-up project receives. */
module Project {
  import opened Wrappers
  import Text
  import Ids
  import Records
  import VideoIds

  datatype Status = Initialized | SettingUp | Ready | Evaluating | Evaluated | Archived

  /** The allowed status strings. */
  function StatusName(s: Status): string {
    match s
    case Initialized => "initialized"
    case SettingUp => "setting-up"
    case Ready => "ready"
    case Evaluating => "evaluating"
    case Evaluated => "evaluated"
    case Archived => "archived"
  }

  /** `AllowedProjectStatuses.includes(status)`, with the status it names. */
  function ParseStatus(name: string): (r: Option<Status>)
    ensures r.Some? ==> StatusName(r.value) == name
    ensures r.None? ==> forall s: Status :: StatusName(s) != name
  {
    if name == "initialized" then Some(Initialized)
    else if name == "setting-up" then Some(SettingUp)
    else if name == "ready" then Some(Ready)
    else if name == "evaluating" then Some(Evaluating)
    else if name == "evaluated" then Some(Evaluated)
    else if name == "archived" then Some(Archived)
    else None
  }

  /** Every status survives being written out and read back. */
  lemma StatusRoundTrip(s: Status)
    ensures ParseStatus(StatusName(s)) == Some(s)
  {
  }

  /** `new Port(port)`: a non-empty supplied port is kept, otherwise
      `String(Math.floor(Math.random() * 6001) + 3000)` with the random draw
      as `roll`. */
  function PortNumber(port: Option<string>, roll: nat): (r: string)
    requires roll <= 6000
    ensures port.Some? && port.value != "" ==> r == port.value
    ensures !(port.Some? && port.value != "") ==>
              && |r| == 4 && Text.IsDigits(r)
              && 3000 <= Text.DigitsValue(r) <= 9000
  {
    if port.Some? && port.value != "" then port.value
    else
      Text.NatToStringFourDigits(3000 + roll);
      Text.NatToStringValue(3000 + roll);
      Text.NatToString(3000 + roll)
  }

  /** Either an explicit `repoURL` or a `repoURLOrShorthand`. */
  datatype RepoSource = RepoURL(url: string) | RepoShorthand(text: string)

  /** The repository URL as the constructor computes it: the shorthand
      branch interpolates the whole properties object, whose `String` form is
      `[object Object]`. */
  function ResolveRepoURLAsWritten(src: RepoSource): (r: string)
    ensures src.RepoURL? ==> r == src.url
    ensures src.RepoShorthand? && Text.StartsWith(src.text, "http") ==> r == src.text
  {
    match src
    case RepoURL(url) => url
    case RepoShorthand(text) =>
      if Text.StartsWith(text, "http") then text else "https://github.com/" + "[object Object]"
  }

  /** As written, every shorthand that is not a URL resolves to the same
      address, whatever it names. */
  lemma ShorthandLostAsWritten(a: string, b: string)
    requires !Text.StartsWith(a, "http") && !Text.StartsWith(b, "http")
    ensures ResolveRepoURLAsWritten(RepoShorthand(a)) == ResolveRepoURLAsWritten(RepoShorthand(b))
    ensures ResolveRepoURLAsWritten(RepoShorthand("mastra-ai/template-x")) == "https://github.com/[object Object]"
  {
    assert "mastra-ai/template-x"[..4][0] == 'm';
  }

  /** The repository URL with the shorthand interpolated, which is what the
      GitHub prefix is evidently meant for. */
  function ResolveRepoURL(src: RepoSource): (r: string)
    ensures src.RepoURL? ==> r == src.url
    ensures src.RepoShorthand? && Text.StartsWith(src.text, "http") ==> r == src.text
    ensures src.RepoShorthand? && !Text.StartsWith(src.text, "http") ==>
              Text.StartsWith(r, "https://github.com/") && r[|"https://github.com/"|..] == src.text
  {
    match src
    case RepoURL(url) => url
    case RepoShorthand(text) =>
      if Text.StartsWith(text, "http") then text else "https://github.com/" + text
  }

  /** Corrected, distinct shorthands name distinct repositories. */
  lemma ShorthandKept(a: string, b: string)
    requires !Text.StartsWith(a, "http") && !Text.StartsWith(b, "http") && a != b
    ensures ResolveRepoURL(RepoShorthand(a)) != ResolveRepoURL(RepoShorthand(b))
  {
    var pa := ResolveRepoURL(RepoShorthand(a));
    var pb := ResolveRepoURL(RepoShorthand(b));
    assert pa[|"https://github.com/"|..] == a;
    assert pb[|"https://github.com/"|..] == b;
  }

  /** The constructor's properties; `None` is an absent (or `null`) one. */
  datatype Props = Props(
    name: string,
    videoURL: string,
    description: string,
    status: Option<string>,
    id: Option<Ids.IdInput>,
    port: Option<string>,
    envConfig: Option<Records.Record>,
    agentToEvaluate: Option<string>,
    repo: RepoSource)

  datatype Project = Project(
    name: string,
    id: Ids.Id,
    port: string,
    repoURL: string,
    videoURL: string,
    description: string,
    status: Status,
    agentToEvaluate: Option<string>,
    envConfig: Records.Record)

  /** JavaScript truthiness of a supplied id. */
  predicate IdTruthy(x: Option<Ids.IdInput>) {
    match x
    case None => false
    case Some(v) =>
      (v.FromText? ==> v.text != "") && (v.FromNumber? ==> v.n != 0)
  }

  /** `props.status || "initialized"` */
  function StatusText(props: Props): (r: string)
    ensures r != ""
  {
    if props.status.Some? && props.status.value != "" then props.status.value else "initialized"
  }

  /** `new Project(props, config)` with `randomUUID()` as `uuid` and the
      port's random draw as `roll`. It fails exactly when the status is not
      one of the six allowed names; a built project has a non-empty port and
      description and an empty environment map, whatever `envConfig` was. */
  function NewProject(props: Props, uuid: string, roll: nat): (r: Result<Project>)
    requires roll <= 6000
    ensures r.Err? <==> ParseStatus(StatusText(props)).None?
    ensures r.Err? ==> r.error == "Invalid project status: " + StatusText(props)
    ensures r.Ok? ==> && StatusName(r.value.status) == StatusText(props)
                      && r.value.port == PortNumber(props.port, roll)
                      && r.value.port != ""
                      && r.value.description != ""
                      && r.value.envConfig == []
                      && r.value.name == props.name && r.value.videoURL == props.videoURL
                      && r.value.repoURL == ResolveRepoURL(props.repo)
                      && r.value.id == Ids.MakeId(if IdTruthy(props.id) then props.id.value else Ids.FromText(uuid))
  {
    var id := Ids.MakeId(if IdTruthy(props.id) then props.id.value else Ids.FromText(uuid));
    var port := PortNumber(props.port, roll);
    var statusText := StatusText(props);
    var repoURL := ResolveRepoURL(props.repo);
    match ParseStatus(statusText)
    case None => Err("Invalid project status: " + statusText)
    case Some(status) =>
      var agent := if props.agentToEvaluate.Some? && props.agentToEvaluate.value != ""
                   then props.agentToEvaluate else None;
      var description := if props.description != "" then props.description else "No description provided";
      Ok(Project(props.name, id, port, repoURL, props.videoURL, description, status, agent, []))
  }

  /** Without a status the project starts `initialized`. */
  lemma DefaultStatus(props: Props, uuid: string, roll: nat)
    requires roll <= 6000
    requires props.status.None? || props.status.value == ""
    ensures NewProject(props, uuid, roll).Ok?
    ensures NewProject(props, uuid, roll).value.status == Initialized
  {
  }

  /** An empty description is replaced by the fixed placeholder. */
  lemma DescriptionDefault(props: Props, uuid: string, roll: nat)
    requires roll <= 6000
    requires NewProject(props, uuid, roll).Ok?
    ensures NewProject(props, uuid, roll).value.description
            == if props.description == "" then "No description provided" else props.description
  {
  }

  /** The projection handed between workflow steps. */
  datatype ProjectDTO = ProjectDTO(
    name: string,
    id: string,
    videoURL: string,
    videoId: string,
    description: string,
    port: string,
    repoURL: string,
    status: string)

  /** `toDTO()`: eight fields; it fails when the video id cannot be
      extracted, because it calls `getVideoId`. */
  function ToDTO(p: Project): (r: Result<ProjectDTO>)
    ensures r.Ok? <==> VideoIds.GetVideoId(p.videoURL).Ok?
    ensures r.Err? ==> r.error == "Unable to extract video ID"
    ensures r.Ok? ==> && r.value.videoId == VideoIds.GetVideoId(p.videoURL).value
                      && r.value.id == Ids.Value(p.id)
                      && r.value.status == StatusName(p.status)
                      && r.value.name == p.name && r.value.videoURL == p.videoURL
                      && r.value.description == p.description && r.value.port == p.port
                      && r.value.repoURL == p.repoURL
  {
    var videoId :- VideoIds.GetVideoId(p.videoURL);
    Ok(ProjectDTO(p.name, Ids.Value(p.id), p.videoURL, videoId, p.description, p.port,
                  p.repoURL, StatusName(p.status)))
  }

  /** Changing the status changes only the status of the DTO. */
  lemma ToDTOWithStatus(p: Project, st: Status)
    requires ToDTO(p).Ok?
    ensures ToDTO(p.(status := st)) == Ok(ToDTO(p).value.(status := StatusName(st)))
  {
  }

  /** `canonicalVideoURL`: it names the same video as the project's URL. */
  function CanonicalVideoURL(p: Project): (r: Result<string>)
    ensures r.Ok? <==> VideoIds.GetVideoId(p.videoURL).Ok?
    ensures r.Ok? ==> VideoIds.GetVideoId(r.value) == VideoIds.GetVideoId(p.videoURL)
  {
    var videoId :- VideoIds.GetVideoId(p.videoURL);
    VideoIds.CanonicalRoundTrip(p.videoURL);
    Ok(VideoIds.CanonicalFor(videoId))
  }

  /** The text `emitEnvInFolder` writes. */
  function EnvFileText(p: Project): (r: string)
    ensures |p.envConfig| == 0 ==> r == ""
  {
    Records.Render(p.envConfig)
  }

  /** The constructor drops the supplied environment map, so every built
      project writes an empty `.env` file. */
  lemma EnvFileAlwaysEmpty(props: Props, uuid: string, roll: nat)
    requires roll <= 6000
    requires NewProject(props, uuid, roll).Ok?
    ensures EnvFileText(NewProject(props, uuid, roll).value) == ""
  {
  }

  /** The supplied environment map has no effect on the project built. */
  lemma NewProjectIgnoresEnv(props: Props, env: Option<Records.Record>, uuid: string, roll: nat)
    requires roll <= 6000
    ensures NewProject(props.(envConfig := env), uuid, roll) == NewProject(props, uuid, roll)
  {
  }

  /** The properties a DTO supplies when it is handed to the factory. */
  function FromDTO(d: ProjectDTO): (r: Props)
    ensures r.repo == RepoURL(d.repoURL) && r.status == Some(d.status)
  {
    Props(d.name, d.videoURL, d.description, Some(d.status), Some(Ids.FromText(d.id)),
          Some(d.port), None, None, RepoURL(d.repoURL))
  }

  /** A project the constructor can have built. */
  predicate Built(p: Project) {
    Ids.Constructed(p.id) && p.port != "" && p.description != "" && p.envConfig == []
  }

  lemma NewProjectBuilt(props: Props, uuid: string, roll: nat)
    requires roll <= 6000
    requires NewProject(props, uuid, roll).Ok?
    requires props.id.Some? && props.id.value.FromId? ==> Ids.Constructed(props.id.value.id)
    ensures Built(NewProject(props, uuid, roll).value)
  {
    Ids.MakeIdConstructed(if IdTruthy(props.id) then props.id.value else Ids.FromText(uuid));
  }

  /** Properties that name every field of a built project rebuild it
      (without the agent hint). */
  lemma NewProjectOf(props: Props, uuid: string, roll: nat, p: Project)
    requires roll <= 6000 && Built(p)
    requires props.status == Some(StatusName(p.status))
    requires IdTruthy(props.id) && Ids.MakeId(props.id.value) == p.id
    requires props.port == Some(p.port) && props.repo == RepoURL(p.repoURL)
    requires props.name == p.name && props.videoURL == p.videoURL && props.description == p.description
    requires props.agentToEvaluate.None?
    ensures NewProject(props, uuid, roll) == Ok(p.(agentToEvaluate := None))
  {
    StatusRoundTrip(p.status);
  }

  /** Rebuilding a project from its DTO gives it back (without the agent
      hint, which the DTO does not carry), and so the same DTO, provided its
      id is not empty. */
  lemma DTORoundTrip(p: Project, uuid: string, roll: nat)
    requires roll <= 6000
    requires Built(p) && Ids.Value(p.id) != ""
    requires ToDTO(p).Ok?
    ensures NewProject(FromDTO(ToDTO(p).value), uuid, roll) == Ok(p.(agentToEvaluate := None))
    ensures ToDTO(p.(agentToEvaluate := None)) == ToDTO(p)
  {
    var d := ToDTO(p).value;
    var props := FromDTO(d);
    assert props.id == Some(Ids.FromText(Ids.Value(p.id)));
    NewProjectOf(props, uuid, roll, p);
  }
}
