/**
 * The fields of the JSON configuration that the rename pipeline reads. Loading the file is
 * not modelled; during a run the configuration is an immutable value.
 */
module Configuration {

  datatype Config = Config(
    parentDirId: string,           // the root folder whose subtree is scanned
    persistentWords: seq<string>,  // keywords kept, in this order, at the head of new names
    nameDelimiter: string,         // glue between the parts of a new name
    fileExtensions: seq<string>    // the extensions a candidate's title must contain
  )
}
