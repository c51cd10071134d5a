/** `categorize_file`: the fixed table from MIME type to category folder (src/cli.rs:452-541). */
module Classifier {
  import opened Wrappers

  const Multimedia: string := "Multimedia"
  const Docs: string := "Docs"
  const Compressed: string := "Compressed"
  const Misc: string := "Misc"

  /** The four category folders, in the order the program lists them. */
  const CategoryNames: seq<string> := [Multimedia, Docs, Compressed, Misc]

  predicate IsCategory(name: string) {
    name == Multimedia || name == Docs || name == Compressed || name == Misc
  }

  /** The keys the program's table sends to `Multimedia`. */
  const MultimediaTypes: set<string> := {
    // Images
    "image/png", "image/jpeg", "image/jpg", "image/gif", "image/webp",
    "image/svg+xml", "image/bmp", "image/tiff", "image/x-icon",
    // Audio
    "audio/mpeg", "audio/ogg", "audio/wav", "audio/webm", "audio/aac",
    "audio/flac", "audio/x-m4a",
    // Video
    "video/mp4", "video/mpeg", "video/ogg", "video/webm", "video/x-msvideo",
    "video/x-matroska", "video/quicktime"
  }

  /** The keys the program's table sends to `Compressed`. */
  const CompressedTypes: set<string> := {
    "application/zip", "application/x-rar-compressed", "application/x-7z-compressed",
    "application/gzip", "application/x-tar", "application/x-bzip", "application/x-bzip2",
    "application/x-xz"
  }

  /** The keys the program's table sends to `Docs`. */
  const DocsTypes: set<string> := {
    "application/vnd.openxmlformats-officedocument.spreadsheetml.sheet",
    "application/vnd.openxmlformats-officedocument.presentationml.presentation",
    "application/vnd.openxmlformats-officedocument.wordprocessingml.document",
    "application/vnd.ms-excel", "application/vnd.ms-powerpoint", "application/msword",
    "application/pdf", "text/html", "text/csv", "text/xml", "application/xml",
    "text/plain", "text/markdown", "application/rtf"
  }

  /** The keys the program's table sends to `Misc`: style sheets, JSON and source code. */
  const MiscTypes: set<string> := {
    "text/css", "application/json",
    // Code files
    "text/x-python", "text/x-java", "text/x-c", "text/x-c++", "text/x-rust",
    "text/javascript", "application/javascript", "application/typescript",
    "text/x-go", "text/x-php", "text/x-ruby", "text/x-shellscript"
  }

  /**
   * The program's lookup table from MIME type to category, kept as one key
   * set per category. The table lists each key once (`TableKeysDisjoint`), so
   * the order of the tests does not matter. A string matches only an
   * identical key: there is no case folding and no prefix match.
   */
  function MimeCategory(mt: string): (r: Option<string>)
    ensures r.Some? ==> IsCategory(r.value)
  {
    if mt in MultimediaTypes then Some(Multimedia)
    else if mt in DocsTypes then Some(Docs)
    else if mt in CompressedTypes then Some(Compressed)
    else if mt in MiscTypes then Some(Misc)
    else None
  }

  /**
   * The category of a file with the given MIME type: the table's entry for an
   * exact key, `Misc` for any other string and for no MIME type at all.
   */
  function CategorizeFile(mime: Option<string>): (r: string)
    ensures IsCategory(r)
    ensures r != Misc ==> mime.Some? && MimeCategory(mime.value) == Some(r)
    ensures mime.Some? && MimeCategory(mime.value).Some? ==> r == MimeCategory(mime.value).value
  {
    match mime
    case Some(mt) => MimeCategory(mt).UnwrapOr(Misc)
    case None => Misc
  }

  /** No MIME type, and any string that is not a key of the table, both give `Misc`. */
  lemma CategorizeFallsBackToMisc(mime: Option<string>)
    requires mime.None? || MimeCategory(mime.value).None?
    ensures CategorizeFile(mime) == Misc
  {
  }

  lemma MultimediaDocsApart()
    ensures MultimediaTypes !! DocsTypes
  {
  }

  lemma MultimediaCompressedApart()
    ensures MultimediaTypes !! CompressedTypes
  {
  }

  lemma MultimediaMiscApart()
    ensures MultimediaTypes !! MiscTypes
  {
  }

  lemma DocsCompressedApart()
    ensures DocsTypes !! CompressedTypes
  {
  }

  lemma DocsMiscApart()
    ensures DocsTypes !! MiscTypes
  {
  }

  lemma CompressedMiscApart()
    ensures CompressedTypes !! MiscTypes
  {
  }

  /** No key is listed under two categories. */
  lemma TableKeysDisjoint()
    ensures MultimediaTypes !! DocsTypes && MultimediaTypes !! CompressedTypes && MultimediaTypes !! MiscTypes
    ensures DocsTypes !! CompressedTypes && DocsTypes !! MiscTypes && CompressedTypes !! MiscTypes
  {
    MultimediaDocsApart();
    MultimediaCompressedApart();
    MultimediaMiscApart();
    DocsCompressedApart();
    DocsMiscApart();
    CompressedMiscApart();
  }

  /** Every key of the table gets the category it is listed under. */
  lemma EveryKeyGetsItsCategory(mt: string)
    ensures mt in MultimediaTypes ==> CategorizeFile(Some(mt)) == Multimedia
    ensures mt in DocsTypes ==> CategorizeFile(Some(mt)) == Docs
    ensures mt in CompressedTypes ==> CategorizeFile(Some(mt)) == Compressed
    ensures mt in MiscTypes ==> CategorizeFile(Some(mt)) == Misc
  {
    TableKeysDisjoint();
  }

  /** Table entries the crate's unit tests check: images, audio and video. */
  lemma MultimediaEntries()
    ensures CategorizeFile(Some("image/png")) == Multimedia
    ensures CategorizeFile(Some("image/jpeg")) == Multimedia
    ensures CategorizeFile(Some("image/gif")) == Multimedia
    ensures CategorizeFile(Some("video/mp4")) == Multimedia
    ensures CategorizeFile(Some("video/webm")) == Multimedia
  {
  }

  /** Table entries the crate's unit tests check: archives. */
  lemma CompressedEntries()
    ensures CategorizeFile(Some("application/zip")) == Compressed
    ensures CategorizeFile(Some("application/x-7z-compressed")) == Compressed
    ensures CategorizeFile(Some("application/x-tar")) == Compressed
  {
  }

  /** Table entries the crate's unit tests check: documents. */
  lemma DocsEntries()
    ensures CategorizeFile(Some("application/pdf")) == Docs
    ensures CategorizeFile(Some("application/vnd.openxmlformats-officedocument.wordprocessingml.document")) == Docs
    ensures CategorizeFile(Some("text/plain")) == Docs
  {
  }

  /** Keys the table itself sends to `Misc`. */
  lemma MiscEntries()
    ensures CategorizeFile(Some("text/css")) == Misc
    ensures CategorizeFile(Some("application/json")) == Misc
  {
  }

  /** Source-code types, which the table also sends to `Misc`. */
  lemma CodeEntries()
    ensures CategorizeFile(Some("text/javascript")) == Misc
    ensures CategorizeFile(Some("text/x-python")) == Misc
  {
  }

  /** A type the table does not list falls back to `Misc`. */
  lemma UnknownTypeIsMisc()
    ensures MimeCategory("application/x-unknown").None?
    ensures CategorizeFile(Some("application/x-unknown")) == Misc
  {
  }

  /** Matching is exact: another case is not a key. */
  lemma NoCaseFolding()
    ensures MimeCategory("IMAGE/PNG").None?
  {
  }

  /** Matching is exact: a key followed by parameters is not a key. */
  lemma NoParameterMatching()
    ensures MimeCategory("image/png; charset=binary").None?
  {
  }
}
