/** The checks a selected file passes before the dashboard uploads it:
    a MIME type allow-list first, then a size cap. */
module Uploads {
  import opened Js

  datatype FileInfo = FileInfo(name: string, mime: string, size: nat)

  datatype FileCheck = NoFile | WrongType | TooLarge | Accepted

  const ImageTypes: seq<string> := ["image/jpeg", "image/png", "image/gif", "image/webp"]
  const MaxImageSize: nat := 5 * 1024 * 1024

  const AudioTypes: seq<string> :=
    ["audio/mpeg", "audio/mp3", "audio/wav", "audio/ogg", "audio/mp4", "audio/x-m4a", "audio/m4a"]
  const MaxAudioSize: nat := 10 * 1024 * 1024

  /** The type is checked before the size; the size cap is inclusive (`size > max` rejects). */
  function CheckFile(file: Option<FileInfo>, types: seq<string>, maxSize: nat): (r: FileCheck)
    ensures r == NoFile <==> file.None?
    ensures r == Accepted <==> file.Some? && file.value.mime in types && file.value.size <= maxSize
    ensures r == WrongType <==> file.Some? && file.value.mime !in types
    ensures r == TooLarge <==> file.Some? && file.value.mime in types && file.value.size > maxSize
  {
    match file
    case None => NoFile
    case Some(f) =>
      if f.mime !in types then WrongType
      else if f.size > maxSize then TooLarge
      else Accepted
  }

  /** `handleFileSelect` */
  function CheckImage(file: Option<FileInfo>): (r: FileCheck)
    ensures r == Accepted <==> file.Some? && file.value.mime in ImageTypes && file.value.size <= 5242880
  {
    CheckFile(file, ImageTypes, MaxImageSize)
  }

  /** `handleMusicFileSelect` */
  function CheckAudio(file: Option<FileInfo>): (r: FileCheck)
    ensures r == Accepted <==> file.Some? && file.value.mime in AudioTypes && file.value.size <= 10485760
  {
    CheckFile(file, AudioTypes, MaxAudioSize)
  }

  /** Exactly five megabytes passes the image check, one byte more does not;
      a file of the wrong type is reported as such whatever its size. */
  lemma ImageSizeBoundary(name: string)
    ensures CheckImage(Some(FileInfo(name, "image/png", 5242880))) == Accepted
    ensures CheckImage(Some(FileInfo(name, "image/png", 5242881))) == TooLarge
    ensures CheckImage(Some(FileInfo(name, "image/bmp", 5242881))) == WrongType
  {
  }

  /** No type is allowed by both checks, so an image is never accepted as music. */
  lemma TypesDisjoint(f: FileInfo)
    ensures CheckImage(Some(f)) == Accepted ==> CheckAudio(Some(f)) == WrongType
    ensures CheckAudio(Some(f)) == Accepted ==> CheckImage(Some(f)) == WrongType
  {
  }
}
