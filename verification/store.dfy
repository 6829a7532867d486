/** Paths and the JSON metadata documents the scripts read. */
module Store {

  import opened Wrappers

  /** A filesystem path as the segments `os.path.join` puts together. */
  type Path = seq<string>

  /** One entry of `productFrames`; only its `valid` key is read. */
  datatype Frame = Frame(valid: Option<string>)

  /** A product metadata document; a key the file lacks is None. */
  datatype Metadata = Metadata(lastReloadTime: Option<string>, productFrames: Option<seq<Frame>>)

  /** A metadata file's content: a decoded JSON document, or text `json.load` rejects. */
  datatype Document = Json(doc: Metadata) | Unreadable
}
