/**
 * The vendor's add-product form: up to five images uploaded into two
 * parallel lists (the previews and the `image_urls` field), removal by
 * index, and the submitted product row.
 *
 * The price and commission fields hold the integers their text parses to;
 * the price is None while its text is empty.
 */
module AddProduct {
  import opened Common
  import opened Rows
  import opened Schema
  import opened Store
  import opened Files

  const MaxImages: nat := 5
  const DefaultCommission: int := 10

  /** A file the upload handler accepts: an image of at most 5 MiB. */
  predicate IsValidImage(f: FileInfo) {
    IsImageType(f) && WithinSizeLimit(f)
  }

  function ValidImage(): FileInfo -> bool { (f: FileInfo) => IsValidImage(f) }

  /** `Array.from(files).slice(0, remainingSlots).filter(...)`. */
  function ValidFiles(files: seq<FileInfo>, remainingSlots: nat): (r: seq<FileInfo>)
    ensures |r| <= remainingSlots
    ensures forall f :: f in r ==> IsValidImage(f) && f in files
    ensures forall i :: 0 <= i < |files| && i < remainingSlots && IsValidImage(files[i]) ==> files[i] in r
  {
    var considered := if remainingSlots <= |files| then files[..remainingSlots] else files;
    var r := Where(considered, ValidImage());
    assert forall f :: f in considered ==> f in files;
    assert forall i :: 0 <= i < |files| && i < remainingSlots ==> considered[i] == files[i];
    r
  }

  /**
   * The kept files are in the order they were picked: the files of a pick
   * that fits the free slots are those of its first part followed by those
   * of the rest.
   */
  lemma ValidFilesKeepOrder(a: seq<FileInfo>, b: seq<FileInfo>, remainingSlots: nat)
    requires |a| + |b| <= remainingSlots
    ensures ValidFiles(a + b, remainingSlots) == ValidFiles(a, remainingSlots) + ValidFiles(b, remainingSlots)
  {
    assert ValidFiles(a + b, remainingSlots) == Where(a + b, ValidImage()) by {
      if remainingSlots <= |a + b| { assert (a + b)[..remainingSlots] == a + b; }
    }
    assert ValidFiles(a, remainingSlots) == Where(a, ValidImage()) by {
      if remainingSlots <= |a| { assert a[..remainingSlots] == a; }
    }
    assert ValidFiles(b, remainingSlots) == Where(b, ValidImage()) by {
      if remainingSlots <= |b| { assert b[..remainingSlots] == b; }
    }
    WhereAppend(a, b, ValidImage());
  }

  /** Files past the free slots are never looked at, valid or not. */
  lemma ValidFilesIgnoreOverflow(files: seq<FileInfo>, extra: seq<FileInfo>)
    ensures ValidFiles(files + extra, |files|) == ValidFiles(files, |files|)
  {
    assert (files + extra)[..|files|] == files;
    assert files[..|files|] == files;
  }

  /** `filter((_, i) => i !== index)`, counting from `from`. */
  function DropIndex<T>(s: seq<T>, index: int, from: int): seq<T>
    decreases |s|
  {
    if s == [] then [] else (if from == index then [] else [s[0]]) + DropIndex(s[1..], index, from + 1)
  }

  /** Removing by index: an index in range deletes exactly that element, keeping the others in order. */
  function RemoveAt<T>(s: seq<T>, index: int): (r: seq<T>)
    ensures 0 <= index < |s| ==> r == s[..index] + s[index + 1..]
    ensures !(0 <= index < |s|) ==> r == s
    ensures 0 <= index < |s| ==> |r| == |s| - 1
  {
    DropIndexSpec(s, index, 0);
    DropIndex(s, index, 0)
  }

  lemma {:induction false} DropIndexSpec<T>(s: seq<T>, index: int, from: int)
    ensures from <= index < from + |s| ==> DropIndex(s, index, from) == s[..index - from] + s[index - from + 1..]
    ensures !(from <= index < from + |s|) ==> DropIndex(s, index, from) == s
    decreases |s|
  {
    if from <= index < from + |s| {
      DropIndexInside(s, index, from);
    } else {
      DropIndexOutside(s, index, from);
    }
  }

  lemma {:induction false} DropIndexOutside<T>(s: seq<T>, index: int, from: int)
    requires !(from <= index < from + |s|)
    ensures DropIndex(s, index, from) == s
    decreases |s|
  {
    if s != [] {
      DropIndexOutside(s[1..], index, from + 1);
      assert [s[0]] + s[1..] == s;
    }
  }

  lemma {:induction false} DropIndexInside<T>(s: seq<T>, index: int, from: int)
    requires from <= index < from + |s|
    ensures DropIndex(s, index, from) == s[..index - from] + s[index - from + 1..]
    decreases |s|
  {
    if from == index {
      DropIndexOutside(s[1..], index, from + 1);
    } else {
      var t := s[1..];
      DropIndexInside(t, index, from + 1);
      var k := index - from;
      assert DropIndex(s, index, from) == [s[0]] + (t[..k - 1] + t[k..]);
      assert s[..k] == [s[0]] + t[..k - 1];
      assert s[k + 1..] == t[k..];
    }
  }

  datatype UploadOutcome = NoFiles | MaxImagesReached | NotAuthenticated | NoValidFiles | UploadFailed | Uploaded(count: nat)
  datatype SubmitOutcome = MissingFields | SubmitNotAuthenticated | InsertFailed | ProductAdded

  /** The inserted product; status and sales take the column defaults. */
  function ProductRowFor(id: Id, vendorId: Id, title: string, description: string, price: int, commission: int,
                         category: string, imageUrls: seq<string>): (r: ProductRow)
    ensures r.id == id && r.vendorId == vendorId && r.title == title && r.description == Some(description)
    ensures r.price == price && r.commission == commission && r.category == category
    ensures r.status == Pending && r.sales == Some(0) && r.imageUrls == Some(imageUrls)
    ensures r.imageUrl == if imageUrls != [] && imageUrls[0] != "" then Some(imageUrls[0]) else None
  {
    ProductRow(id, vendorId, title, Some(description), price, commission, category, Pending, Some(0),
               if imageUrls != [] && imageUrls[0] != "" then Some(imageUrls[0]) else None, Some(imageUrls))
  }

  class ProductForm {
    var title: string
    var description: string
    var price: Option<int>
    var commission: int
    var category: string
    var imageUrls: seq<string>
    var imagePreviews: seq<string>
    var isUploading: bool

    /** The previews mirror the image urls, and there are at most five. */
    predicate Valid()
      reads this
    {
      imagePreviews == imageUrls && |imageUrls| <= MaxImages
    }

    /** The empty form, with commission 10. */
    predicate IsReset()
      reads this
    {
      title == "" && description == "" && price.None? && commission == DefaultCommission &&
      category == "" && imageUrls == [] && imagePreviews == []
    }

    constructor ()
      ensures Valid() && IsReset() && !isUploading
    {
      title, description, price, commission, category := "", "", None, DefaultCommission, "";
      imageUrls, imagePreviews, isUploading := [], [], false;
    }

    method EditFields(t: string, d: string, p: Option<int>, c: int, cat: string)
      modifies this`title, this`description, this`price, this`commission, this`category
      ensures title == t && description == d && price == p && commission == c && category == cat
    {
      title, description, price, commission, category := t, d, p, c, cat;
    }

    /**
     * `handleImageUpload`: with no slot left nothing is uploaded; otherwise
     * at most the remaining number of files is considered and only valid
     * images are uploaded. On success their urls are appended to both lists;
     * any upload failure appends nothing.
     */
    method HandleImageUpload(files: seq<FileInfo>, user: Option<Id>, uploadFails: bool, publicUrl: FileInfo -> string)
      returns (outcome: UploadOutcome)
      requires Valid()
      modifies this`imageUrls, this`imagePreviews, this`isUploading
      ensures Valid()
      ensures files != [] && |old(imagePreviews)| >= MaxImages ==> outcome == MaxImagesReached
      ensures outcome.Uploaded? <==>
        files != [] && |old(imagePreviews)| < MaxImages && user.Some? &&
        ValidFiles(files, MaxImages - |old(imagePreviews)|) != [] && !uploadFails
      ensures outcome.Uploaded? ==>
        var urls := MapRows(ValidFiles(files, MaxImages - |old(imagePreviews)|), publicUrl);
        outcome.count == |urls| && imageUrls == old(imageUrls) + urls && imagePreviews == old(imagePreviews) + urls
      ensures !outcome.Uploaded? ==> imageUrls == old(imageUrls) && imagePreviews == old(imagePreviews)
      ensures !isUploading || isUploading == old(isUploading)
    {
      if files == [] {
        return NoFiles;
      }
      if |imagePreviews| >= MaxImages {
        return MaxImagesReached;
      }
      var remainingSlots := MaxImages - |imagePreviews|;
      if user.None? {
        return NotAuthenticated;
      }
      var validFiles := ValidFiles(files, remainingSlots);
      if validFiles == [] {
        return NoValidFiles;
      }
      isUploading := true;
      if uploadFails {
        outcome := UploadFailed;
      } else {
        var uploadedUrls := MapRows(validFiles, publicUrl);
        imageUrls := imageUrls + uploadedUrls;
        imagePreviews := imagePreviews + uploadedUrls;
        outcome := Uploaded(|uploadedUrls|);
      }
      isUploading := false;
    }

    /** `removeImage`: the same index leaves both lists. */
    method RemoveImage(index: int)
      requires Valid()
      modifies this`imageUrls, this`imagePreviews
      ensures Valid()
      ensures imagePreviews == RemoveAt(old(imagePreviews), index) && imageUrls == RemoveAt(old(imageUrls), index)
    {
      imagePreviews := RemoveAt(imagePreviews, index);
      imageUrls := RemoveAt(imageUrls, index);
    }

    /**
     * `handleSubmit`: an empty title, price or category inserts nothing;
     * otherwise one product is inserted for the signed-in vendor, and the
     * form is reset only after that succeeds.
     */
    method HandleSubmit(st: Store, user: Option<Id>, newId: Id, insertFails: bool) returns (outcome: SubmitOutcome)
      requires Valid()
      modifies this, st`products
      ensures Valid()
      ensures old(title) == "" || old(price).None? || old(category) == "" ==> outcome == MissingFields
      ensures outcome == ProductAdded <==>
        old(title) != "" && old(price).Some? && old(category) != "" && user.Some? && !insertFails
      ensures outcome == ProductAdded ==>
        st.products == old(st.products) + [ProductRowFor(newId, user.value, old(title), old(description),
          old(price).value, old(commission), old(category), old(imageUrls))] &&
        IsReset()
      ensures outcome != ProductAdded ==>
        st.products == old(st.products) &&
        title == old(title) && description == old(description) && price == old(price) &&
        commission == old(commission) && category == old(category) &&
        imageUrls == old(imageUrls) && imagePreviews == old(imagePreviews)
    {
      if title == "" || price.None? || category == "" {
        return MissingFields;
      }
      if user.None? {
        return SubmitNotAuthenticated;
      }
      if insertFails {
        return InsertFailed;
      }
      st.products := st.products + [ProductRowFor(newId, user.value, title, description, price.value, commission, category, imageUrls)];
      title, description, price, commission, category := "", "", None, DefaultCommission, "";
      imageUrls := [];
      imagePreviews := [];
      return ProductAdded;
    }
  }
}
