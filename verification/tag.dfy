/** The Open Graph vocabulary of Sources/OpenGraphReader/OpenGraphTag.swift: a closed
    enumeration whose String raw values are property names without the `og:` prefix.
    Swift synthesises `rawValue`, `init(rawValue:)` and `allCases` for it; they are
    `RawValue`, `FromRawValue` and `AllCases` here. The catalogue is reference data:
    the extractor does not consult it. */
module OpenGraphTag {
  import opened Wrappers

  /** The cases, in declaration order. */
  datatype Tag =
    // Basic Metadata
      Title
    | Type
    | Image
    | Url
    // Optional Metadata
    | Audio
    | Description
    | Determiner
    | Locale
    | LocaleAlternate
    | SiteName
    | Video
    // Structured Properties (of og:image)
    | ImageUrl
    | ImageSecureUrl
    | ImageType
    | ImageWidth
    | ImageHeight
    // Music
    | MusicDuration
    | MusicAlbum
    | MusicAlbumDisc
    | MusicAlbumMusic
    | MusicMusician
    | MusicSong
    | MusicSongDisc
    | MusicSongTrack
    | MusicReleaseDate
    | MusicCreator
    // Video
    | VideoActor
    | VideoActorRole
    | VideoDirector
    | VideoWriter
    | VideoDuration
    | VideoReleaseDate
    | VideoTag
    | VideoSeries
    // No Vertical
    | ArticlePublishedTime
    | ArticleModifiedTime
    | ArticleExpirationTime
    | ArticleAuthor
    | ArticleSection
    | ArticleTag

    | BookAuthor
    | BookIsbn
    | BookReleaseDate
    | BookTag

    | ProfileFirstName
    | ProfileLastName
    | ProfileUsername
    | ProfileGender

  /** The groups under which the declaration lists the cases. The declaration's
      `No Vertical` group is split here at its blank lines into the article, book and
      profile cases; the categories only serve to divide the proofs below. */
  datatype Category =
    BasicMetadata | OptionalMetadata | StructuredImage
  | MusicVertical | VideoVertical | ArticleVertical | BookVertical | ProfileVertical

  function CategoryOf(t: Tag): Category
  {
    match t
    case Title | Type | Image | Url => BasicMetadata
    case Audio | Description | Determiner | Locale | LocaleAlternate | SiteName | Video => OptionalMetadata
    case ImageUrl | ImageSecureUrl | ImageType | ImageWidth | ImageHeight => StructuredImage
    case MusicDuration | MusicAlbum | MusicAlbumDisc | MusicAlbumMusic | MusicMusician | MusicSong | MusicSongDisc | MusicSongTrack | MusicReleaseDate | MusicCreator => MusicVertical
    case VideoActor | VideoActorRole | VideoDirector | VideoWriter | VideoDuration | VideoReleaseDate | VideoTag | VideoSeries => VideoVertical
    case ArticlePublishedTime | ArticleModifiedTime | ArticleExpirationTime | ArticleAuthor | ArticleSection | ArticleTag => ArticleVertical
    case BookAuthor | BookIsbn | BookReleaseDate | BookTag => BookVertical
    case ProfileFirstName | ProfileLastName | ProfileUsername | ProfileGender => ProfileVertical
  }

  /** The raw value of a case: the case name itself for the nine cases declared
      without one, the explicit string (verbatim, irregular spellings included) for
      the others. */
  function RawValue(t: Tag): string
  {
    match t
    case Title => "title"
    case Type => "type"
    case Image => "image"
    case Url => "url"
    case Audio => "audio"
    case Description => "description"
    case Determiner => "determiner"
    case Locale => "locale"
    case LocaleAlternate => "locale:alternate"
    case SiteName => "site_name"
    case Video => "video"
    case ImageUrl => "image:url"
    case ImageSecureUrl => "image:secure_url"
    case ImageType => "image:type"
    case ImageWidth => "image:width"
    case ImageHeight => "image:height"
    case MusicDuration => "music:duration"
    case MusicAlbum => "music:album"
    case MusicAlbumDisc => "music:album:disc"
    case MusicAlbumMusic => "music:album:track"
    case MusicMusician => "music:musician"
    case MusicSong => "music:song"
    case MusicSongDisc => "music:song:disc"
    case MusicSongTrack => "music:song:track"
    case MusicReleaseDate => "music:release_date"
    case MusicCreator => "music:creator"
    case VideoActor => "video:actor"
    case VideoActorRole => "video:actor:role"
    case VideoDirector => "video:director"
    case VideoWriter => "video:writer"
    case VideoDuration => "video:duration"
    case VideoReleaseDate => "video:releaseDate"
    case VideoTag => "video:tag"
    case VideoSeries => "video:series"
    case ArticlePublishedTime => "article:published_time"
    case ArticleModifiedTime => "article:modified_time"
    case ArticleExpirationTime => "article:expiration_time"
    case ArticleAuthor => "article:author"
    case ArticleSection => "article:section"
    case ArticleTag => "article:tag"
    case BookAuthor => "book:author"
    case BookIsbn => "book:isbn"
    case BookReleaseDate => "book:release_date"
    case BookTag => "book:tag"
    case ProfileFirstName => "profile:first_name"
    case ProfileLastName => "profile:last_name"
    case ProfileUsername => "profile:username"
    case ProfileGender => "profile:gender"
  }

  /** The only case whose raw value `s` can be, read off the length of `s` and its
      characters at positions 0, 6 and 7: raw values of equal length already differ
      there, and none starts with `o`. Nothing in the enumeration corresponds to it;
      it exists so that `FromRawValue` and the facts about it are cheap to prove,
      comparing `s` in full with one raw value instead of with all 48. */
  function Classify(s: string): Option<Tag>
  {
    var n := |s|;
    var c0 := if n > 0 then s[0] else ' ';
    var c6 := if n > 6 then s[6] else ' ';
    var c7 := if n > 7 then s[7] else ' ';
    if c0 == 'o' then None
    else if n == 3 then Some(Url)
    else if n == 4 then Some(Type)
    else if n == 5 then
      (if c0 == 't' then Some(Title) else if c0 == 'i' then Some(Image)
       else if c0 == 'a' then Some(Audio) else Some(Video))
    else if n == 6 then Some(Locale)
    else if n == 8 then Some(BookTag)
    else if n == 9 then
      (if c0 == 's' then Some(SiteName) else if c0 == 'i' then Some(ImageUrl)
       else if c0 == 'v' then Some(VideoTag) else Some(BookIsbn))
    else if n == 10 then
      (if c0 == 'd' then Some(Determiner) else if c0 == 'i' then Some(ImageType) else Some(MusicSong))
    else if n == 11 then
      (if c0 == 'd' then Some(Description) else if c0 == 'i' then Some(ImageWidth)
       else if c0 == 'm' then Some(MusicAlbum) else if c0 == 'v' then Some(VideoActor)
       else if c0 == 'a' then Some(ArticleTag) else Some(BookAuthor))
    else if n == 12 then
      (if c0 == 'i' then Some(ImageHeight) else if c6 == 'w' then Some(VideoWriter) else Some(VideoSeries))
    else if n == 13 then Some(MusicCreator)
    else if n == 14 then
      (if c0 == 'm' then (if c6 == 'd' then Some(MusicDuration) else Some(MusicMusician))
       else if c0 == 'v' then (if c7 == 'i' then Some(VideoDirector) else Some(VideoDuration))
       else if c0 == 'a' then Some(ArticleAuthor) else Some(ProfileGender))
    else if n == 15 then
      (if c0 == 'm' then Some(MusicSongDisc) else Some(ArticleSection))
    else if n == 16 then
      (if c0 == 'l' then Some(LocaleAlternate) else if c0 == 'i' then Some(ImageSecureUrl)
       else if c0 == 'm' then (if c6 == 'a' then Some(MusicAlbumDisc) else Some(MusicSongTrack))
       else if c0 == 'v' then Some(VideoActorRole) else Some(ProfileUsername))
    else if n == 17 then
      (if c0 == 'm' then Some(MusicAlbumMusic) else if c0 == 'v' then Some(VideoReleaseDate)
       else if c0 == 'b' then Some(BookReleaseDate) else Some(ProfileLastName))
    else if n == 18 then
      (if c0 == 'm' then Some(MusicReleaseDate) else Some(ProfileFirstName))
    else if n == 21 then Some(ArticleModifiedTime)
    else if n == 22 then Some(ArticlePublishedTime)
    else if n == 23 then Some(ArticleExpirationTime)
    else None
  }

  /** Swift's failable `init(rawValue:)`: the case whose raw value is `s`, or nil. The
      synthesised initialiser compares `s` with the raw values; here `Classify` first
      narrows the candidates to one case and `s` is then compared with its raw value in
      full. Since raw values are unique (`RawValueInjective`), this is the same as
      comparing with every raw value in declaration order. */
  function FromRawValue(s: string): (r: Option<Tag>)
    ensures r.Some? ==> RawValue(r.value) == s
  {
    match Classify(s)
    case None => None
    case Some(t) => if RawValue(t) == s then Some(t) else None
  }

  /** The number of cases. */
  const CaseCount: nat := 48

  /** The case declared at position `i` (counting from 0). */
  function TagAt(i: nat): Tag
    requires i < CaseCount
  {
    match i
    case 0 => Title
    case 1 => Type
    case 2 => Image
    case 3 => Url
    case 4 => Audio
    case 5 => Description
    case 6 => Determiner
    case 7 => Locale
    case 8 => LocaleAlternate
    case 9 => SiteName
    case 10 => Video
    case 11 => ImageUrl
    case 12 => ImageSecureUrl
    case 13 => ImageType
    case 14 => ImageWidth
    case 15 => ImageHeight
    case 16 => MusicDuration
    case 17 => MusicAlbum
    case 18 => MusicAlbumDisc
    case 19 => MusicAlbumMusic
    case 20 => MusicMusician
    case 21 => MusicSong
    case 22 => MusicSongDisc
    case 23 => MusicSongTrack
    case 24 => MusicReleaseDate
    case 25 => MusicCreator
    case 26 => VideoActor
    case 27 => VideoActorRole
    case 28 => VideoDirector
    case 29 => VideoWriter
    case 30 => VideoDuration
    case 31 => VideoReleaseDate
    case 32 => VideoTag
    case 33 => VideoSeries
    case 34 => ArticlePublishedTime
    case 35 => ArticleModifiedTime
    case 36 => ArticleExpirationTime
    case 37 => ArticleAuthor
    case 38 => ArticleSection
    case 39 => ArticleTag
    case 40 => BookAuthor
    case 41 => BookIsbn
    case 42 => BookReleaseDate
    case 43 => BookTag
    case 44 => ProfileFirstName
    case 45 => ProfileLastName
    case 46 => ProfileUsername
    case 47 => ProfileGender
  }

  /** The position at which `t` is declared (counting from 0). */
  function Ordinal(t: Tag): (i: nat)
    ensures i < CaseCount && TagAt(i) == t
  {
    match t
    case Title => 0
    case Type => 1
    case Image => 2
    case Url => 3
    case Audio => 4
    case Description => 5
    case Determiner => 6
    case Locale => 7
    case LocaleAlternate => 8
    case SiteName => 9
    case Video => 10
    case ImageUrl => 11
    case ImageSecureUrl => 12
    case ImageType => 13
    case ImageWidth => 14
    case ImageHeight => 15
    case MusicDuration => 16
    case MusicAlbum => 17
    case MusicAlbumDisc => 18
    case MusicAlbumMusic => 19
    case MusicMusician => 20
    case MusicSong => 21
    case MusicSongDisc => 22
    case MusicSongTrack => 23
    case MusicReleaseDate => 24
    case MusicCreator => 25
    case VideoActor => 26
    case VideoActorRole => 27
    case VideoDirector => 28
    case VideoWriter => 29
    case VideoDuration => 30
    case VideoReleaseDate => 31
    case VideoTag => 32
    case VideoSeries => 33
    case ArticlePublishedTime => 34
    case ArticleModifiedTime => 35
    case ArticleExpirationTime => 36
    case ArticleAuthor => 37
    case ArticleSection => 38
    case ArticleTag => 39
    case BookAuthor => 40
    case BookIsbn => 41
    case BookReleaseDate => 42
    case BookTag => 43
    case ProfileFirstName => 44
    case ProfileLastName => 45
    case ProfileUsername => 46
    case ProfileGender => 47
  }

  /** Swift's `allCases`: every case once, in declaration order. */
  const AllCases: seq<Tag> := seq(CaseCount, i requires 0 <= i < CaseCount => TagAt(i))

  // `Classify` recognises the raw value of every case, one category at a time.
  lemma ClassifyBasicMetadata(t: Tag)
    requires CategoryOf(t) == BasicMetadata
    ensures Classify(RawValue(t)) == Some(t)
  {
  }

  lemma ClassifyOptionalMetadata(t: Tag)
    requires CategoryOf(t) == OptionalMetadata
    ensures Classify(RawValue(t)) == Some(t)
  {
  }

  lemma ClassifyStructuredImage(t: Tag)
    requires CategoryOf(t) == StructuredImage
    ensures Classify(RawValue(t)) == Some(t)
  {
  }

  lemma ClassifyMusicVertical(t: Tag)
    requires CategoryOf(t) == MusicVertical
    ensures Classify(RawValue(t)) == Some(t)
  {
  }

  lemma ClassifyVideoVertical(t: Tag)
    requires CategoryOf(t) == VideoVertical
    ensures Classify(RawValue(t)) == Some(t)
  {
  }

  lemma ClassifyArticleVertical(t: Tag)
    requires CategoryOf(t) == ArticleVertical
    ensures Classify(RawValue(t)) == Some(t)
  {
  }

  lemma ClassifyBookVertical(t: Tag)
    requires CategoryOf(t) == BookVertical
    ensures Classify(RawValue(t)) == Some(t)
  {
  }

  lemma ClassifyProfileVertical(t: Tag)
    requires CategoryOf(t) == ProfileVertical
    ensures Classify(RawValue(t)) == Some(t)
  {
  }

  /** `Classify` recognises the raw value of every case. */
  lemma ClassifyRawValue(t: Tag)
    ensures Classify(RawValue(t)) == Some(t)
  {
    match CategoryOf(t)
    case BasicMetadata => ClassifyBasicMetadata(t);
    case OptionalMetadata => ClassifyOptionalMetadata(t);
    case StructuredImage => ClassifyStructuredImage(t);
    case MusicVertical => ClassifyMusicVertical(t);
    case VideoVertical => ClassifyVideoVertical(t);
    case ArticleVertical => ClassifyArticleVertical(t);
    case BookVertical => ClassifyBookVertical(t);
    case ProfileVertical => ClassifyProfileVertical(t);
  }

  /** `rawValue` is injective: no two cases share a raw value. */
  lemma RawValueInjective(t: Tag, u: Tag)
    ensures RawValue(t) == RawValue(u) ==> t == u
  {
    ClassifyRawValue(t);
    ClassifyRawValue(u);
  }

  /** Printing a case and parsing the result gives the case back. */
  lemma RoundTrip(t: Tag)
    ensures FromRawValue(RawValue(t)) == Some(t)
  {
    ClassifyRawValue(t);
  }

  /** `init(rawValue:)` fails exactly on the strings that are no case's raw value. */
  lemma FromRawValueFailsExactly(s: string)
    ensures FromRawValue(s).None? <==> forall t: Tag :: RawValue(t) != s
  {
    forall t: Tag ensures RawValue(t) == s ==> FromRawValue(s) == Some(t) {
      RoundTrip(t);
    }
  }

  /** `TagAt` and `Ordinal` are inverse: the declaration has exactly `CaseCount` cases. */
  lemma OrdinalOfTagAt(i: nat)
    requires i < CaseCount
    ensures Ordinal(TagAt(i)) == i
  {
    if i < 12 {
      OrdinalOfTagAtBelow12(i);
    } else if i < 24 {
      OrdinalOfTagAtBelow24(i);
    } else if i < 30 {
      OrdinalOfTagAtBelow30(i);
    } else if i < 36 {
      OrdinalOfTagAtBelow36(i);
    } else if i < 42 {
      OrdinalOfTagAtBelow42(i);
    } else {
      OrdinalOfTagAtBelow48(i);
    }
  }

  // The same, a few positions at a time: the later the position, the more cases
  // both matches pass before reaching it.
  lemma OrdinalOfTagAtBelow12(i: nat)
    requires i < 12
    ensures Ordinal(TagAt(i)) == i
  {
  }

  lemma OrdinalOfTagAtBelow24(i: nat)
    requires 12 <= i < 24
    ensures Ordinal(TagAt(i)) == i
  {
  }

  lemma OrdinalOfTagAtBelow30(i: nat)
    requires 24 <= i < 30
    ensures Ordinal(TagAt(i)) == i
  {
  }

  lemma OrdinalOfTagAtBelow36(i: nat)
    requires 30 <= i < 36
    ensures Ordinal(TagAt(i)) == i
  {
  }

  lemma OrdinalOfTagAtBelow42(i: nat)
    requires 36 <= i < 42
    ensures Ordinal(TagAt(i)) == i
  {
  }

  lemma OrdinalOfTagAtBelow48(i: nat)
    requires 42 <= i < CaseCount
    ensures Ordinal(TagAt(i)) == i
  {
  }

  /** `allCases` lists every case exactly once, in declaration order. */
  lemma AllCasesComplete()
    ensures |AllCases| == 48
    ensures forall t: Tag :: t in AllCases && AllCases[Ordinal(t)] == t
    ensures forall i, j :: 0 <= i < j < |AllCases| ==> AllCases[i] != AllCases[j]
  {
    forall t: Tag ensures t in AllCases && AllCases[Ordinal(t)] == t {
      assert AllCases[Ordinal(t)] == TagAt(Ordinal(t));
    }
    forall i, j | 0 <= i < j < |AllCases|
      ensures AllCases[i] != AllCases[j]
    {
      OrdinalOfTagAt(i);
      OrdinalOfTagAt(j);
    }
  }

  /** No raw value carries the `og:` prefix that the property keys of a page have:
      none even starts with `o`. */
  lemma NoRawValueIsPrefixed(t: Tag)
    ensures !("og:" <= RawValue(t))
  {
    ClassifyRawValue(t);
  }

  /** Hence a full property key such as `og:title` is not a raw value. */
  lemma PrefixedKeyDoesNotParse(key: string)
    requires "og:" <= key
    ensures FromRawValue(key) == None
  {
    assert key[0] == "og:"[0];
  }

  /** The nine cases declared without a raw value parse from their own names. */
  lemma ImplicitRawValues()
    ensures FromRawValue("title") == Some(Title)
    ensures FromRawValue("type") == Some(Type)
    ensures FromRawValue("image") == Some(Image)
    ensures FromRawValue("url") == Some(Url)
    ensures FromRawValue("audio") == Some(Audio)
    ensures FromRawValue("description") == Some(Description)
    ensures FromRawValue("determiner") == Some(Determiner)
    ensures FromRawValue("locale") == Some(Locale)
    ensures FromRawValue("video") == Some(Video)
  {
    RoundTrip(Title); RoundTrip(Type); RoundTrip(Image); RoundTrip(Url); RoundTrip(Audio);
    RoundTrip(Description); RoundTrip(Determiner); RoundTrip(Locale); RoundTrip(Video);
  }

  /** Two irregular raw values are kept as written: the album-track case is
      `music:album:track`, and the video release date is camel-cased
      (`video:releaseDate`), unlike the `release_date` of music and books. Only the
      spelling as written parses (see `RegularSpellingsDoNotParse`). */
  lemma IrregularRawValues()
    ensures FromRawValue("music:album:track") == Some(MusicAlbumMusic)
    ensures FromRawValue("video:releaseDate") == Some(VideoReleaseDate)
  {
    RoundTrip(MusicAlbumMusic);
    RoundTrip(VideoReleaseDate);
  }

  /** The spellings the other cases would suggest, `music:album:music` and
      `video:release_date`, are no raw value. */
  lemma RegularSpellingsDoNotParse()
    ensures FromRawValue("music:album:music") == None
    ensures FromRawValue("video:release_date") == None
  {
    assert "music:album:music"[12] != RawValue(MusicAlbumMusic)[12];
    assert "video:release_date"[0] != RawValue(ProfileFirstName)[0];
  }
}
