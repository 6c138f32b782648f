/** Routing of uploaded files by their MIME type. */
module FileRouting {

  /** Which handler an uploaded file is routed to. */
  datatype Kind = Document | Image | Unsupported

  /** Python's str.startswith. */
  predicate StartsWith(s: string, prefix: string) {
    |prefix| <= |s| && s[..|prefix|] == prefix
  }

  predicate IsDocumentType(mime: string) {
    mime == "application/pdf" || mime == "text/plain"
  }

  /** Documents first, then images, then everything else; the first two never overlap. */
  function Classify(mime: string): (k: Kind)
    ensures k == Document <==> IsDocumentType(mime)
    ensures k == Image <==> StartsWith(mime, "image/")
    ensures k == Unsupported <==> !IsDocumentType(mime) && !StartsWith(mime, "image/")
  {
    if IsDocumentType(mime) then
      DocumentTypesAreNotImages(mime);
      Document
    else if StartsWith(mime, "image/") then Image
    else Unsupported
  }

  /** No document type is an image type, so the order of the two tests does not matter. */
  lemma DocumentTypesAreNotImages(mime: string)
    requires IsDocumentType(mime)
    ensures !StartsWith(mime, "image/")
  {
    assert mime[0] != 'i';
  }

  /** Every "image/..." type is routed to the image handler, whatever follows the slash. */
  lemma ImageFamily(subtype: string)
    ensures Classify("image/" + subtype) == Image
  {
    var mime := "image/" + subtype;
    assert mime[..6] == "image/";
    if IsDocumentType(mime) {
      DocumentTypesAreNotImages(mime);
    }
  }
}
