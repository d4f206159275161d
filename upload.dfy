/**
 * The product-image upload route: the file filter, the stored name and path,
 * and the mapping of upload errors to responses. The disk storage is the
 * upload library's; the unique prefix of a stored name (clock and random
 * number) is a parameter.
 */
module Upload {
  import opened Common

  /* ---------------------------------------------------------------------- */
  /* File names                                                             */
  /* ---------------------------------------------------------------------- */

  /** Whether `s[i..]` starts with `w`. */
  predicate OccursAt(s: string, w: string, i: nat)
  {
    i + |w| <= |s| && s[i..i + |w|] == w
  }

  predicate Occurs(s: string, w: string)
  {
    exists i: nat :: i <= |s| && OccursAt(s, w, i)
  }

  /** `/jpeg|jpg|png|webp/.test(s)`: the unanchored match. */
  predicate MatchesImageType(s: string)
  {
    Occurs(s, "jpeg") || Occurs(s, "jpg") || Occurs(s, "png") || Occurs(s, "webp")
  }

  /** An unanchored match still matches inside a longer text. */
  lemma MatchSurvivesContext(before: string, s: string, after: string)
    requires MatchesImageType(s)
    ensures MatchesImageType(before + s + after)
  {
    var t := before + s + after;
    forall w: string, i: nat | OccursAt(s, w, i)
      ensures |before| + i <= |t| && OccursAt(t, w, |before| + i)
    {
      assert t[|before| + i..|before| + i + |w|] == s[i..i + |w|];
    }
  }

  /** The index of the last '.', if any. */
  function LastDot(name: string): (k: Option<nat>)
    ensures k.Some? ==> k.value < |name| && name[k.value] == '.' && '.' !in name[k.value + 1..]
    ensures k.None? ==> '.' !in name
  {
    if name == [] then None
    else if name[|name| - 1] == '.' then Some(|name| - 1)
    else
      var k := LastDot(name[..|name| - 1]);
      assert name == name[..|name| - 1] + [name[|name| - 1]];
      if k.Some? then
        assert name[k.value + 1..] == name[..|name| - 1][k.value + 1..] + [name[|name| - 1]];
        k
      else None
  }

  /**
   * `path.extname` of a name without '/': from the last '.' to the end,
   * except for a name with no '.', a name whose only '.' leads it, and "..".
   */
  function ExtName(name: string): (ext: string)
    ensures ext == [] || (ext[0] == '.' && '.' !in ext[1..])
    ensures ext != [] ==> |ext| < |name| && name[|name| - |ext|..] == ext
  {
    var k := LastDot(name);
    if k.None? || k.value == 0 || name == ".." then ""
    else name[k.value..]
  }

  lemma ExtNameOfUpperCasePhoto()
    ensures ExtName("photo.PNG") == ".PNG"
  {
    assert LastDot("photo.PNG") == Some(5) by {
      assert "photo.PNG"[..8] == "photo.PN";
      assert "photo.PN"[..7] == "photo.P";
      assert "photo.P"[..6] == "photo.";
    }
  }

  lemma ExtNameOfDoubleExtension()
    ensures ExtName("archive.tar.gz") == ".gz"
  {
    assert LastDot("archive.tar.gz") == Some(11) by {
      assert "archive.tar.gz"[..13] == "archive.tar.g";
      assert "archive.tar.g"[..12] == "archive.tar.";
    }
  }

  lemma ExtNameOfDotFile()
    ensures ExtName(".png") == ""
  {
    assert LastDot(".png") == Some(0) by {
      assert ".png"[..3] == ".pn";
      assert ".pn"[..2] == ".p";
      assert ".p"[..1] == ".";
    }
  }

  /** `path.extname` on a mixed-case name, a double extension, a dot file and a name without extension. */
  lemma ExtNameExamples()
    ensures ExtName("photo.PNG") == ".PNG"
    ensures ExtName("archive.tar.gz") == ".gz"
    ensures ExtName(".png") == ""
    ensures ExtName("noext") == ""
  {
    ExtNameOfUpperCasePhoto();
    ExtNameOfDoubleExtension();
    ExtNameOfDotFile();
    assert '.' !in "noext";
  }

  /** The stored file's name: the unique prefix followed by the original extension. */
  function StoredName(prefix: string, originalName: string): (n: string)
    ensures |n| >= |ExtName(originalName)| && n[|n| - |ExtName(originalName)|..] == ExtName(originalName)
  {
    var n := prefix + ExtName(originalName);
    assert n[|prefix|..] == ExtName(originalName);
    n
  }

  const UploadDir: string := "/uploads/products/"

  /** The path returned to the client. */
  function StoredPath(fileName: string): (p: string)
    ensures |p| == |UploadDir| + |fileName| && p[..|UploadDir|] == UploadDir && p[|UploadDir|..] == fileName
  {
    UploadDir + fileName
  }

  /* ---------------------------------------------------------------------- */
  /* The filter                                                             */
  /* ---------------------------------------------------------------------- */

  /** fileFilter: the lowercased extension and the mimetype as sent must both match. */
  predicate AcceptsFile(originalName: string, mimetype: string)
  {
    MatchesImageType(Lower(ExtName(originalName))) && MatchesImageType(mimetype)
  }

  /** A word whose first letter is missing from a text does not occur in it. */
  lemma FirstLetterMissing(s: string, w: string)
    requires w != [] && w[0] !in s
    ensures !Occurs(s, w)
  {
    forall i: nat | i <= |s|
      ensures !OccursAt(s, w, i)
    {
      if i + |w| <= |s| {
        assert s[i..i + |w|][0] == s[i] && s[i] in s;
      }
    }
  }

  /** The extension is compared in any letter case: ".PNG" passes. */
  lemma UpperCaseExtensionAccepted()
    ensures AcceptsFile("photo.PNG", "image/png")
  {
    ExtNameOfUpperCasePhoto();
    assert Lower(".PNG") == ".png";
    assert OccursAt(".png", "png", 1);
    assert OccursAt("image/png", "png", 6);
  }

  /** The mimetype is compared as sent: "image/PNG" fails. */
  lemma UpperCaseMimetypeRejected(name: string)
    ensures !AcceptsFile(name, "image/PNG")
  {
    var m := "image/PNG";
    assert 'j' !in m && 'p' !in m && 'w' !in m;
    FirstLetterMissing(m, "jpeg");
    FirstLetterMissing(m, "jpg");
    FirstLetterMissing(m, "png");
    FirstLetterMissing(m, "webp");
  }

  /** The match is unanchored: an extension such as ".pngx" passes. */
  lemma UnanchoredExtension()
    ensures AcceptsFile("x.pngx", "image/png")
  {
    assert LastDot("x.pngx") == Some(1) by {
      assert "x.pngx"[..5] == "x.png";
      assert "x.png"[..4] == "x.pn";
      assert "x.pn"[..3] == "x.p";
      assert "x.p"[..2] == "x.";
    }
    assert ExtName("x.pngx") == ".pngx";
    assert Lower(".pngx") == ".pngx";
    assert OccursAt(".pngx", "png", 1);
    assert OccursAt("image/png", "png", 6);
  }

  /* ---------------------------------------------------------------------- */
  /* The route                                                              */
  /* ---------------------------------------------------------------------- */

  const MaxFileSize: nat := 5 * 1024 * 1024
  const FilterMessage: string := "Only image files are allowed (jpeg, jpg, png, webp)"
  const SizeMessage: string := "File size too large. Maximum size is 5MB"

  /** What the client sent in the `image` field. */
  datatype Part = NoFile | File(originalName: string, mimetype: string, size: nat)

  /** The route's answer: the stored path and name, or a 400 with its message. */
  datatype UploadResult = Uploaded(filePath: string, fileName: string) | Rejected(status: nat, message: string)

  /**
   * The upload: the filter first, then the size limit, then the missing-file
   * check of the handler.
   */
  function UploadImage(part: Part, prefix: string): (r: UploadResult)
    ensures part.NoFile? ==> r == Rejected(400, "No file uploaded")
    ensures part.File? && !AcceptsFile(part.originalName, part.mimetype) ==> r == Rejected(400, FilterMessage)
    ensures part.File? && AcceptsFile(part.originalName, part.mimetype) && part.size > MaxFileSize ==>
      r == Rejected(400, SizeMessage)
    ensures r.Uploaded? <==> part.File? && AcceptsFile(part.originalName, part.mimetype) && part.size <= MaxFileSize
    ensures r.Uploaded? ==> r.filePath == StoredPath(r.fileName) && r.fileName == StoredName(prefix, part.originalName)
  {
    match part
    case NoFile => Rejected(400, "No file uploaded")
    case File(name, mimetype, size) =>
      if !AcceptsFile(name, mimetype) then Rejected(400, FilterMessage)
      else if size > MaxFileSize then Rejected(400, SizeMessage)
      else
        var fileName := StoredName(prefix, name);
        Uploaded(StoredPath(fileName), fileName)
  }

  /** Every stored file carries an image extension and lies in the product upload directory. */
  lemma UploadedFilesAreImages(part: Part, prefix: string)
    requires UploadImage(part, prefix).Uploaded?
    ensures var r := UploadImage(part, prefix);
      && r.filePath[..|UploadDir|] == UploadDir
      && MatchesImageType(Lower(r.fileName[|r.fileName| - |ExtName(part.originalName)|..]))
  {
  }
}
