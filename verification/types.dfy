/** Record shapes and closed enumerations of the social-engagement bot
    (types.ts). Optional fields of the source become `Option` values;
    the Portuguese field names are kept, camel-cased. */
module Types {

  datatype Option<+T> = None | Some(value: T)

  datatype Platform = Instagram | TikTok | Kwai | YouTube
  datatype Sentiment = Positivo | Neutro | Negativo
  datatype OriginType = Curtida | Comentario
  datatype ActionType = Curtir | Comentar | Direct | Follow | Unfollow
  datatype AccountStatus = Ativa | Inativa

  /** The platform's string tag as it appears in the source. */
  function PlatformName(p: Platform): string
  {
    match p
    case Instagram => "instagram"
    case TikTok => "tiktok"
    case Kwai => "kwai"
    case YouTube => "youtube"
  }

  /** `platform.toUpperCase()` */
  function PlatformUpper(p: Platform): string
  {
    match p
    case Instagram => "INSTAGRAM"
    case TikTok => "TIKTOK"
    case Kwai => "KWAI"
    case YouTube => "YOUTUBE"
  }

  /** `actionType.toUpperCase()` */
  function ActionUpper(a: ActionType): string
  {
    match a
    case Curtir => "CURTIR"
    case Comentar => "COMENTAR"
    case Direct => "DIRECT"
    case Follow => "FOLLOW"
    case Unfollow => "UNFOLLOW"
  }

  /** A managed account that performs actions on one platform. */
  datatype SocialAccount = SocialAccount(
    id: string,
    username: string,
    password: Option<string>,
    platform: Platform,
    status: AccountStatus,
    createdAt: string)

  /** What a caller hands to `addAccount`: an account without id and creation time. */
  datatype AccountDraft = AccountDraft(
    username: string,
    password: Option<string>,
    platform: Platform,
    status: AccountStatus)

  /** A target profile found by the collection pipeline. */
  datatype CollectedProfile = CollectedProfile(
    id: string,
    perfilUsuario: string,
    plataforma: Platform,
    tipoOrigem: OriginType,
    perfilOrigem: string,
    comentario: Option<string>,
    tipoComentario: Option<Sentiment>,
    nicho: string,
    dataInsercao: string)

  /** What a caller hands to `addProfile`: a profile without id and insertion time. */
  datatype ProfileDraft = ProfileDraft(
    perfilUsuario: string,
    plataforma: Platform,
    tipoOrigem: OriginType,
    perfilOrigem: string,
    comentario: Option<string>,
    tipoComentario: Option<Sentiment>,
    nicho: string)

  /** One entry of the action history. */
  datatype ActionPerformed = ActionPerformed(
    id: string,
    perfilUsuario: string,
    plataforma: Platform,
    tipoAcao: ActionType,
    dataAcao: string,
    conteudo: Option<string>)

  /** What a caller hands to `addAction`: an action without id and time. */
  datatype ActionDraft = ActionDraft(
    perfilUsuario: string,
    plataforma: Platform,
    tipoAcao: ActionType,
    conteudo: Option<string>)

  datatype VisualMode = AiGenerated | WebSearch

  datatype StoryboardFrame = StoryboardFrame(time: string, description: string, webUri: string)

  /** A generated post idea; only `platform` and `title` matter to publishing. */
  datatype PostIdea = PostIdea(
    id: string,
    platform: Platform,
    title: string,
    script: string,
    narratorScript: Option<string>,
    videoDuration: Option<int>,
    caption: string,
    hashtags: seq<string>,
    cta: string,
    overlayText: string,
    visualMode: VisualMode,
    imageUrl: Option<string>,
    storyboard: Option<seq<StoryboardFrame>>)

  datatype LogLevel = Info | Success | Warning | Error

  datatype LogEntry = LogEntry(
    timestamp: string,
    message: string,
    level: LogLevel,
    platform: Option<Platform>)
}
