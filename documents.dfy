/**
 * Attached documents: the validation rule of an upload and the two
 * file-type tests.
 */
module Documents {
  import opened Wrappers
  import opened Text

  /** A stored attachment; the generated uuid and the upload time are inputs. */
  datatype Document = Document(
    entityType: string,
    entityId: string,
    filename: string,
    filePath: string,
    fileType: string,
    documentType: string,
    fileSize: int,
    uploadedBy: string,
    id: string)

  /** The size limit, 10 MiB in bytes. */
  const MaxSize: int := 10 * 1024 * 1024

  /** The MIME types an upload may have. */
  const AllowedTypes: seq<string> := [
    "image/jpeg", "image/png", "image/jpg",
    "application/pdf",
    "application/msword",
    "application/" + "vnd.openxmlformats-officedocument.wordprocessingml.document"]

  /** What `validate` accepts. */
  predicate DocumentValid(d: Document)
  {
    && !Blank(d.filename)
    && d.entityType != "" && d.entityId != ""
    && 0 < d.fileSize <= MaxSize
    && d.fileType in AllowedTypes
  }

  /** `validate`: the checks in source order, each with its own message. */
  function Validate(d: Document): (r: Result<(), string>)
    ensures r.Ok? <==> DocumentValid(d)
    ensures Blank(d.filename) ==> r == Err("El nom del fitxer és obligatori")
    ensures !Blank(d.filename) && (d.entityType == "" || d.entityId == "") ==>
      r == Err("El tipus i ID de l'entitat són obligatoris")
    ensures !Blank(d.filename) && d.entityType != "" && d.entityId != "" && d.fileSize <= 0 ==>
      r == Err("La mida del fitxer ha de ser superior a 0")
    ensures !Blank(d.filename) && d.entityType != "" && d.entityId != "" && d.fileSize > MaxSize ==>
      r == Err("El fitxer no pot superar els 10MB")
    ensures r.Err? && 0 < d.fileSize <= MaxSize && !Blank(d.filename) && d.entityType != "" && d.entityId != "" ==>
      d.fileType !in AllowedTypes && r == Err("Tipus de fitxer no permès: " + d.fileType)
  {
    if Blank(d.filename) then Err("El nom del fitxer és obligatori")
    else if d.entityType == "" || d.entityId == "" then Err("El tipus i ID de l'entitat són obligatoris")
    else if d.fileSize <= 0 then Err("La mida del fitxer ha de ser superior a 0")
    else if d.fileSize > MaxSize then Err("El fitxer no pot superar els 10MB")
    else if d.fileType !in AllowedTypes then Err("Tipus de fitxer no permès: " + d.fileType)
    else Ok(())
  }

  /** `is_image`. */
  predicate IsImage(d: Document)
  {
    StartsWith(d.fileType, "image/")
  }

  /** `is_pdf`. */
  predicate IsPdf(d: Document)
  {
    d.fileType == "application/pdf"
  }

  /** Among accepted uploads, the images are exactly the three image types of the list. */
  lemma ValidImageTypes(d: Document)
    requires DocumentValid(d)
    ensures IsImage(d) <==> d.fileType in AllowedTypes[..3]
  {
    var t := d.fileType;
    var i :| 0 <= i < |AllowedTypes| && AllowedTypes[i] == t;
    assert AllowedTypes[..3] == ["image/jpeg", "image/png", "image/jpg"];
    if i >= 3 {
      assert AllowedTypes[3][0] == 'a' && AllowedTypes[4][0] == 'a' && AllowedTypes[5][0] == 'a';
      assert t[0] != 'i';
    }
  }

  /** A PDF is never an image. */
  lemma PdfNotImage(d: Document)
    requires IsPdf(d)
    ensures !IsImage(d)
  {
    assert d.fileType[0] == 'a';
  }
}
