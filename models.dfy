/** The value types shared by the client, the parser and the pager. */
module Models {
  import opened Text

  /** `usize` on a 64-bit target, where a cast from `u64` is the identity. */
  type usize = x: int | 0 <= x < 0x1_0000_0000_0000_0000

  /** The language track of a title. Closed: wire strings other than the two
      tokens below never yield a value of this type. */
  datatype TranslationType = Sub | Dub

  /** An episode number. `f32` is modelled as a real number, which has no NaN
      and no rounding. */
  datatype EpisodeMeta = EpisodeMeta(number: real, released: bool)

  datatype Anime = Anime(
    id: string,
    title: string,
    available_translations: seq<TranslationType>,
    episode_count: usize)

  /** `quality` is a `u16`: always in 0..65535, 0 meaning unknown. */
  datatype EpisodeStream = EpisodeStream(quality: u16, url: string, provider: string)

  datatype SelectedAnime = SelectedAnime(
    anime: Anime,
    translation: TranslationType,
    episodes: seq<EpisodeMeta>)

  datatype HistoryEntry = HistoryEntry(
    anime_id: string,
    last_episode: real,
    translation: TranslationType)

  /** The error kinds the core returns. A wrapped `reqwest::Error` or
      `serde_json::Error` is kept as its description. */
  datatype AppError =
    | RequestError(cause: string)
    | ApiError(message: string)
    | JsonRequestError(cause: string)
    | ParsingError(reason: string)
    | NoStreamsAvailable
    | NoEpisodesAvailable
    | ClientError(message: string)
    | UnknownError(message: string)

  /** `impl Display for TranslationType`. */
  function Display(t: TranslationType): (r: string)
    ensures |r| == 3 && r[1..] == "ub"
  {
    match t
    case Sub => "Sub"
    case Dub => "Dub"
  }

  /** The wire token for a translation, used both as the key of the episode
      list in a `show` response and as the `translationType` variable of an
      `episode` request. */
  function WireToken(t: TranslationType): (r: string)
    ensures |r| == |Display(t)| && r[1..] == Display(t)[1..]
    ensures r[0] as int == Display(t)[0] as int + 32
  {
    match t
    case Sub => "sub"
    case Dub => "dub"
  }

  /** There is no third translation. */
  lemma TranslationTypeClosed(t: TranslationType)
    ensures t == Sub || t == Dub
  {
  }

  /** Display tells the two translations apart. */
  lemma DisplayInjective(a: TranslationType, b: TranslationType)
    ensures Display(a) == Display(b) <==> a == b
  {
  }

  /** The wire tokens tell the two translations apart. */
  lemma WireTokenInjective(a: TranslationType, b: TranslationType)
    ensures WireToken(a) == WireToken(b) <==> a == b
  {
  }
}
