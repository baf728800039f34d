/**
 * A file picked in a browser file input, as the upload handlers see it:
 * its name, MIME type and size in bytes, and the size cap they share.
 */
module Files {
  import opened Common

  datatype FileInfo = FileInfo(name: string, mimeType: string, size: nat)

  /** 5 MiB, written `5 * 1024 * 1024` in every handler. */
  const MaxFileSize: nat := 5 * 1024 * 1024

  /** `file.type.startsWith('image/')`. */
  predicate IsImageType(f: FileInfo) {
    StartsWith(f.mimeType, "image/")
  }

  predicate WithinSizeLimit(f: FileInfo) {
    f.size <= MaxFileSize
  }
}
