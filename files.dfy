/** A file chosen in a browser file input, and the verdict of a file check. */
module Files {
  /** The `name`, `type` (MIME) and `size` (bytes) of a browser `File`. */
  datatype FileInfo = FileInfo(name: string, mime: string, size: nat)

  /** The checks reject a bad type before looking at the size. */
  datatype FileCheck = FileAccepted | InvalidType | TooLarge

  const MiB: nat := 1024 * 1024
}
