/** File contents as the tool reads them, and the two decoders: json.load on a
    file and zipfile reading one named entry. The byte formats of JSON text
    and ZIP archives are abstracted: a written document reads back as itself. */
module Files {
  import opened Json

  datatype Content =
    | Text(doc: Json)                          // JSON text, as json.dump writes it
    | Archive(entries: map<string, Content>)   // a ZIP archive, by entry name
    | Malformed                                // UTF-8 text that json.load rejects
    | Binary                                   // bytes that are not UTF-8 and no archive

  /** Whether reading the file as UTF-8 text succeeds: JSON text and malformed
      text do; an archive and other binary content raise UnicodeDecodeError. */
  predicate IsUtf8Text(c: Content) {
    c.Text? || c.Malformed?
  }

  /** json.load on a file: None on any decoding error. */
  function DecodeJson(c: Content): (r: Option<Json>)
    ensures r.Some? <==> c.Text?
  {
    if c.Text? then Some(c.doc) else None
  }

  /** zipfile.ZipFile(f).read(entry) followed by json.loads: None when the file
      is no archive, lacks the entry, or the entry is not JSON text. */
  function DecodeZipEntry(c: Content, entry: string): (r: Option<Json>)
    ensures r.Some? <==> c.Archive? && entry in c.entries && c.entries[entry].Text?
  {
    if c.Archive? && entry in c.entries then DecodeJson(c.entries[entry]) else None
  }
}
