/** Identifiers, digests in textual form and time stamps: opaque text to every module. */
module Names {
  type Name = string
}
