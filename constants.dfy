/** The shared constants: the two mime allow-lists, the two extension allow-lists,
    the thumbnail bound and the upload size limit. */
module Constants {
  import opened Strings

  const ImageMimeTypes: seq<string> := ["image/jpeg", "image/png", "image/gif", "image/webp"]
  const VideoMimeTypes: seq<string> := ["video/mp4", "video/avi", "video/quicktime", "video/webm"]

  const ImageExtensions: seq<string> := [".jpg", ".jpeg", ".png", ".gif", ".webp"]
  const VideoExtensions: seq<string> := [".mp4", ".avi", ".mov", ".webm"]

  /** Side of the square box a thumbnail is fitted inside, in pixels. */
  const ThumbnailSize: nat := 256
  /** Largest accepted upload, in bytes (100 MB). */
  const MaxFileSize: nat := 100 * 1024 * 1024

  const JobStatusChannel: string := "job:status:update"
  const JobQueueName: string := "thumbnail-generation"

  /** The shape every allow-listed extension has: a leading dot, at least one more
      character, no other dot, no slash, and already lower-case. */
  predicate WellFormedExtension(e: string) {
    && |e| >= 2
    && e[0] == '.'
    && (forall i :: 1 <= i < |e| ==> e[i] != '.' && e[i] != '/')
    && ToLower(e) == e
  }

  lemma MimeListsDisjoint()
    ensures forall m :: m in ImageMimeTypes ==> m !in VideoMimeTypes
  {
    forall m | m in ImageMimeTypes ensures m !in VideoMimeTypes {
      assert m[0] == 'i';
    }
  }

  lemma ExtensionListsDisjoint()
    ensures forall e :: e in ImageExtensions ==> e !in VideoExtensions
  {
    forall e | e in ImageExtensions ensures e !in VideoExtensions {
      assert e == ".jpg" || e == ".jpeg" || e == ".png" || e == ".gif" || e == ".webp";
      assert e[1] in {'j', 'p', 'g', 'w'};
      if e[1] == 'w' {
        assert e[2] == 'e' && ".webm"[2] == 'e';
        assert |e| == 5 && e[4] == 'p';
      }
    }
  }

  lemma ExtensionsWellFormed()
    ensures forall e :: e in ImageExtensions ==> WellFormedExtension(e)
    ensures forall e :: e in VideoExtensions ==> WellFormedExtension(e)
  {
    forall e | e in ImageExtensions + VideoExtensions ensures WellFormedExtension(e) {
      assert ToLower(e) == e;
    }
  }

  lemma LimitsAsDocumented()
    ensures MaxFileSize == 104857600
    ensures MaxFileSize / 1024 / 1024 == 100
    ensures ThumbnailSize == 256
  {
  }
}
