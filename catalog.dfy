/**
 * The souvenir-shop catalogue editor of shop/product_manager.py: a list of
 * products kept in memory, an entry form, the image chosen for the form,
 * the index of the product being edited, the image files under `aff-data/`
 * and the two files the list is saved to (`products.json` and its mirror
 * `products-data.js`).
 *
 * Each button of the editor is a step function on a `Session` value; the
 * class `ProductManager` holds the same state in fields and its methods
 * perform the steps imperatively, each proved equal to its step function.
 * Dialog boxes become the `Outcome` a step returns; the file system, the
 * QR-code library and the user's answers become parameters.
 */
module Catalog {
  import opened Basics
  import opened Strings
  import opened Slug

  /** One catalogue entry, with the JSON keys of the saved records. */
  datatype Product = Product(
    id: string, name: string, image: string, qrImage: string,
    priceNow: string, priceOriginal: string, discount: string,
    buyLink: string, description: seq<string>)

  /** What the entry widgets hold (the description is the text box's content). */
  datatype Form = Form(
    name: string, priceNow: string, priceOriginal: string,
    discount: string, buyLink: string, description: string)

  const EmptyForm := Form("", "", "", "", "", "")

  /** A file under `aff-data/`: a copy of a chosen picture, or a QR code encoding a link. */
  datatype Asset = ImageCopy(source: string) | QrCode(data: string)

  /** The generated `products-data.js`: a header comment and one `const` binding of the records. */
  datatype Mirror = Mirror(header: string, binding: string, records: seq<Product>)

  /** The two saved files; `None` is a file that does not exist. */
  datatype Store = Store(json: Option<seq<Product>>, mirror: Option<Mirror>)

  const MirrorHeader := "// Dữ liệu sản phẩm - Được tạo tự động bởi product_manager.py\n"
  const MirrorBinding := "productsData"

  /** What a button press shows: a warning, an error, an information box, an uncaught exception, or nothing. */
  datatype Outcome = Warning(text: string) | Error(text: string) | Info(text: string) | Raised(reason: string) | Quiet

  const NoName := "Vui lòng nhập tên sản phẩm!"
  const NoPrice := "Vui lòng nhập giá sản phẩm!"
  const NoLink := "Vui lòng nhập link mua hàng!"
  const NoImage := "Vui lòng chọn ảnh sản phẩm!"
  const Incomplete := "Vui lòng điền đầy đủ thông tin!"
  const NoEditSelection := "Vui lòng chọn sản phẩm cần sửa!"
  const NoDeleteSelection := "Vui lòng chọn sản phẩm cần xóa!"
  const Deleted := "Đã xóa sản phẩm!"
  const CopyFailed := "shutil.copy2 failed"
  const StaleIndex := "IndexError: list index out of range"

  /** Everything the editor's buttons read or change. */
  datatype Session = Session(
    products: seq<Product>, form: Form, selectedImage: Option<string>,
    editingIndex: Option<nat>, assets: map<string, Asset>, store: Store)

  /** What the QR library does in one call: whether it is installed and whether making the code succeeds. */
  datatype QrEnv = QrEnv(available: bool, succeeds: bool)

  predicate QrMade(qr: QrEnv) { qr.available && qr.succeeds }

  // ---------------------------------------------------------------------
  // Persistence

  /** `load_products`: the saved records, or none when `products.json` does not exist. */
  function Load(json: Option<seq<Product>>): (ps: seq<Product>)
    ensures json.None? ==> ps == []
  {
    match json
    case None => []
    case Some(records) => records
  }

  /**
   * `save_products`: both files rewritten with the same records, so that
   * loading again gives back the list and the mirror holds what the JSON
   * file holds.
   */
  function Saved(products: seq<Product>): (st: Store)
    ensures st.json.Some? && st.mirror.Some?
    ensures st.mirror.value.header == MirrorHeader && st.mirror.value.binding == MirrorBinding
    ensures Load(st.json) == products
    ensures st.mirror.value.records == Load(st.json)
  {
    Store(Some(products), Some(Mirror(MirrorHeader, MirrorBinding, products)))
  }

  /** The files agree with the list in memory: reloading gives the list, and the mirror carries the same records. */
  predicate Consistent(s: Session) {
    && Load(s.store.json) == s.products
    && (s.store.mirror.Some? ==> s.store.mirror.value.records == s.products)
  }

  // ---------------------------------------------------------------------
  // Paths

  /** Some character of `p[lo..hi]` is not a dot. */
  predicate HasNonDot(p: string, lo: nat, hi: nat)
    requires lo <= hi <= |p|
  {
    exists k :: lo <= k < hi && p[k] != '.'
  }

  /**
   * `os.path.splitext(p)[1]` with `/` as separator: the text from the last dot
   * of the last path component, unless that dot only begins a run of leading
   * dots (as in `.bashrc`).
   */
  function Ext(p: string): (e: string)
    ensures |e| <= |p| && p[|p| - |e|..] == e
    ensures e == [] || (e[0] == '.' && '/' !in e)
    // at most one period
    ensures e != [] ==> '.' !in e[1..]
    // the dot follows some character of the last component that is not a dot
    ensures e != [] ==> BaseStart(p) <= |p| - |e| && HasNonDot(p, BaseStart(p), |p| - |e|)
    // no extension: every dot of the last component only begins its run of leading dots
    ensures e == [] ==> forall d :: BaseStart(p) <= d < |p| && p[d] == '.' ==> !HasNonDot(p, BaseStart(p), d)
  {
    match LastIndexOf(p, '.')
    case None => []
    case Some(d) =>
      var start := BaseStart(p);
      if start <= d && HasNonDot(p, start, d) then
        ExtFlat(p, d);
        p[d..]
      else
        NoExt(p, d);
        []
  }

  /** Where the last path component of `p` begins. */
  function BaseStart(p: string): (start: nat)
    ensures start <= |p| && '/' !in p[start..]
  {
    match LastIndexOf(p, '/') case None => 0 case Some(q) => q + 1
  }

  lemma NoExt(p: string, d0: nat)
    requires LastIndexOf(p, '.') == Some(d0)
    requires !(BaseStart(p) <= d0 && HasNonDot(p, BaseStart(p), d0))
    ensures forall d :: BaseStart(p) <= d < |p| && p[d] == '.' ==> !HasNonDot(p, BaseStart(p), d)
  {
    var start := BaseStart(p);
    forall d | start <= d < |p| && p[d] == '.'
      ensures !HasNonDot(p, start, d)
    {
      NoneAfterLast(p, '.', d0, d);
      forall k | start <= k < d ensures p[k] == '.' {
        assert start <= k < d0;
      }
    }
  }

  /** A position holding `c` lies at or before the last occurrence of `c`. */
  lemma NoneAfterLast(p: string, c: char, r: nat, d: nat)
    requires LastIndexOf(p, c) == Some(r)
    requires d < |p| && p[d] == c
    ensures d <= r
  {
    forall j | r < j < |p| ensures p[j] != c {
      assert p[r + 1..][j - r - 1] == p[j];
    }
  }

  /** `os.path.splitext` keeps only the last period: `a.tar.gz` has the extension `.gz`. */
  lemma ExtLastPeriod()
    ensures Ext("a.tar.gz") == ".gz"
  {
    var p := "a.tar.gz";
    assert LastIndexOf(p, '.') == Some(5) by { assert p[5] == '.' && p[6..] == "gz"; }
    assert LastIndexOf(p, '/') == None;
    assert p[0] != '.';
  }

  /** Leading periods of the last component are no extension: `.png` and `dir/.png` have none. */
  lemma ExtLeadingDots()
    ensures Ext(".png") == []
    ensures Ext("dir/.png") == []
  {
    assert LastIndexOf(".png", '.') == Some(0) by { assert ".png"[1..] == "png"; }
    assert LastIndexOf(".png", '/') == None;
    var p := "dir/.png";
    assert LastIndexOf(p, '.') == Some(4) by { assert p[4] == '.' && p[5..] == "png"; }
    assert LastIndexOf(p, '/') == Some(3) by { assert p[3] == '/' && p[4..] == ".png"; }
  }

  lemma ExtFlat(p: string, d: nat)
    requires d < |p|
    requires match LastIndexOf(p, '/') case None => true case Some(q) => q < d
    ensures '/' !in p[d..]
  {
    var last := LastIndexOf(p, '/');
    if last.Some? {
      var q := last.value;
      forall k | 0 <= k < |p[d..]| ensures p[d..][k] != '/' {
        assert p[d..][k] == p[q + 1..][d - q - 1 + k];
      }
    }
  }

  /** The file name under `aff-data/` of a product's picture: the identifier followed by the picture's extension. */
  function ImageFile(id: string, source: string): string { id + Ext(source) }

  /** The file name of a product's QR code. */
  function QrFile(id: string): string { id + "_qr.webp" }

  /** How a record refers to a file under `aff-data/`. */
  function AssetRef(file: string): string { "../aff-data/" + file }

  const AssetDir := "aff-data/"

  /**
   * The file below `aff-data/` that `delete_product` removes for a stored
   * reference: every `../` is deleted and the rest is resolved against the
   * parent of the script directory. `None` is a path outside `aff-data/`.
   */
  function AssetKey(reference: string): (k: Option<string>)
    ensures k.Some? ==> |k.value| <= |reference|
  {
    var r := RemoveAll(reference, "../");
    if |r| >= |AssetDir| && r[..|AssetDir|] == AssetDir then Some(r[|AssetDir|..]) else None
  }

  /** No `../` occurs in `s`. */
  predicate NoParentStep(s: string) {
    forall k :: 0 <= k < |s| - 2 ==> !(s[k] == '.' && s[k + 1] == '.' && s[k + 2] == '/')
  }

  lemma {:induction false} RemoveAllClean(s: string)
    requires NoParentStep(s)
    ensures RemoveAll(s, "../") == s
    decreases |s|
  {
    if |s| >= 3 {
      assert s[..3] != "../" by { assert !(s[0] == '.' && s[1] == '.' && s[2] == '/'); }
      assert NoParentStep(s[1..]) by {
        forall k | 0 <= k < |s[1..]| - 2
          ensures !(s[1..][k] == '.' && s[1..][k + 1] == '.' && s[1..][k + 2] == '/')
        {
          assert s[1..][k] == s[k + 1] && s[1..][k + 1] == s[k + 2] && s[1..][k + 2] == s[k + 3];
        }
      }
      RemoveAllClean(s[1..]);
      assert s == [s[0]] + s[1..];
    }
  }

  /** A reference written by the editor leads back to the file it names. */
  lemma {:induction false} AssetKeyOfRef(file: string)
    requires '/' !in file
    ensures AssetKey(AssetRef(file)) == Some(file)
  {
    var rest := AssetDir + file;
    assert AssetRef(file) == "../" + rest;
    assert NoParentStep(rest) by {
      forall k | 0 <= k < |rest| - 2 ensures !(rest[k] == '.' && rest[k + 1] == '.' && rest[k + 2] == '/') {
        if k + 2 != 8 {
          if k + 2 < 8 { assert rest[k + 2] == AssetDir[k + 2]; }
          else { assert rest[k + 2] == file[k + 2 - 9]; }
        } else {
          assert rest[k] == 't';
        }
      }
    }
    RemoveAllClean(rest);
    assert ("../" + rest)[..3] == "../";
    assert ("../" + rest)[3..] == rest;
    assert rest[..|AssetDir|] == AssetDir;
    assert rest[|AssetDir|..] == file;
  }

  /** Picture and QR file names of an identifier never contain a `/`, so they stay inside `aff-data/`. */
  lemma FileNamesFlat(id: string, source: string)
    requires IsSlug(id)
    ensures '/' !in ImageFile(id, source) && '/' !in QrFile(id)
  {
    var e := Ext(source);
    forall k | 0 <= k < |id + e| ensures (id + e)[k] != '/' {
      if k < |id| { assert (id + e)[k] == id[k]; assert IsSlugChar(id[k]); }
      else { assert (id + e)[k] == e[k - |id|]; }
    }
    forall k | 0 <= k < |QrFile(id)| ensures QrFile(id)[k] != '/' {
      if k < |id| { assert QrFile(id)[k] == id[k]; assert IsSlugChar(id[k]); }
      else { assert QrFile(id)[k] == "_qr.webp"[k - |id|]; }
    }
  }

  // ---------------------------------------------------------------------
  // Form contents

  /** The kept lines of a description: each piece trimmed, blank pieces dropped. */
  function NonBlank(pieces: seq<string>): (r: seq<string>)
    ensures |r| <= |pieces|
  {
    if |pieces| == 0 then []
    else
      var t := Trim(pieces[0], Python);
      (if t != "" then [t] else []) + NonBlank(pieces[1..])
  }

  /** `[line.strip() for line in text.strip().split('\n') if line.strip()]`. */
  function Lines(text: string): seq<string>
  {
    NonBlank(Split(Trim(text, Python), '\n'))
  }

  /** A description line as the editor stores it: non-empty, already trimmed, on one line. */
  predicate GoodLine(l: string) {
    l != "" && Trim(l, Python) == l && '\n' !in l
  }

  predicate GoodLines(d: seq<string>) { forall i :: 0 <= i < |d| ==> GoodLine(d[i]) }

  lemma {:induction false} NonBlankGood(pieces: seq<string>)
    requires forall i :: 0 <= i < |pieces| ==> '\n' !in pieces[i]
    ensures GoodLines(NonBlank(pieces))
    decreases |pieces|
  {
    if |pieces| > 0 {
      var t := Trim(pieces[0], Python);
      TrimIdempotent(pieces[0], Python);
      InfixLacks(t, pieces[0], '\n');
      var rest := pieces[1..];
      forall i | 0 <= i < |rest| ensures '\n' !in rest[i] { assert rest[i] == pieces[i + 1]; }
      NonBlankGood(rest);
      var tail := NonBlank(rest);
      var head := if t != "" then [t] else [];
      assert NonBlank(pieces) == head + tail;
      forall i | 0 <= i < |head + tail| ensures GoodLine((head + tail)[i]) {
        if i < |head| { assert (head + tail)[i] == t; }
        else { assert (head + tail)[i] == tail[i - |head|]; }
      }
    }
  }

  /** Every stored description line is non-empty, trimmed and free of line breaks. */
  lemma LinesGood(text: string)
    ensures GoodLines(Lines(text))
  {
    var pieces := Split(Trim(text, Python), '\n');
    SplitPieces(Trim(text, Python), '\n');
    NonBlankGood(pieces);
  }

  lemma {:induction false} NonBlankKeeps(d: seq<string>)
    requires GoodLines(d)
    ensures NonBlank(d) == d
    decreases |d|
  {
    if |d| > 0 {
      NonBlankKeeps(d[1..]);
      assert [d[0]] + d[1..] == d;
    }
  }

  /** Good lines joined with line breaks, as the edit form shows them, read back unchanged. */
  lemma LinesJoin(d: seq<string>)
    requires GoodLines(d)
    ensures Lines(Join(d, '\n')) == d
  {
    if |d| == 0 {
      assert Trim("", Python) == "" by { TrimNoop("", Python); }
      assert Split("", '\n') == [""];
    } else {
      var j := Join(d, '\n');
      JoinEnds(d, '\n');
      var first := d[0];
      var last := d[|d| - 1];
      assert !IsSpace(Python, first[0]) && !IsSpace(Python, last[|last| - 1]) by {
        assert Trim(first, Python) == first && Trim(last, Python) == last;
      }
      TrimNoop(j, Python);
      SplitJoin(d, '\n');
      NonBlankKeeps(d);
    }
  }

  /** `add_product`'s checks, in order: name, current price, purchase link, picture. */
  function AddError(f: Form, image: Option<string>): (e: Option<string>)
    ensures e.None? <==>
      (Trim(f.name, Python) != "" && Trim(f.priceNow, Python) != ""
       && Trim(f.buyLink, Python) != "" && image.Some? && image.value != "")
    ensures e == Some(NoName) <==> Trim(f.name, Python) == ""
    ensures e == Some(NoPrice) <==> Trim(f.name, Python) != "" && Trim(f.priceNow, Python) == ""
    ensures e == Some(NoLink) <==>
      Trim(f.name, Python) != "" && Trim(f.priceNow, Python) != "" && Trim(f.buyLink, Python) == ""
    ensures e == Some(NoImage) <==>
      Trim(f.name, Python) != "" && Trim(f.priceNow, Python) != "" && Trim(f.buyLink, Python) != ""
      && (image.None? || image.value == "")
    ensures e.Some? ==> e.value in {NoName, NoPrice, NoLink, NoImage}
  {
    if Trim(f.name, Python) == "" then Some(NoName)
    else if Trim(f.priceNow, Python) == "" then Some(NoPrice)
    else if Trim(f.buyLink, Python) == "" then Some(NoLink)
    else if image.None? || image.value == "" then Some(NoImage)
    else None
  }

  /** `update_product`'s single check. */
  predicate UpdateAllowed(f: Form) {
    Trim(f.name, Python) != "" && Trim(f.priceNow, Python) != "" && Trim(f.buyLink, Python) != ""
  }

  /** The record `add_product` builds from the form. */
  function NewProduct(f: Form, id: string, source: string, qrPath: string): Product
  {
    var name := Trim(f.name, Python);
    Product(id, name, AssetRef(ImageFile(id, source)), qrPath,
      Trim(f.priceNow, Python), Trim(f.priceOriginal, Python), Trim(f.discount, Python),
      Trim(f.buyLink, Python), Lines(f.description))
  }

  /** The text fields `update_product` overwrites; identifier, picture and QR code stay. */
  function Overwrite(p: Product, f: Form): Product
  {
    p.(name := Trim(f.name, Python), priceNow := Trim(f.priceNow, Python),
       priceOriginal := Trim(f.priceOriginal, Python), discount := Trim(f.discount, Python),
       buyLink := Trim(f.buyLink, Python), description := Lines(f.description))
  }

  /** What `edit_product` puts in the widgets for a product. */
  function FormOf(p: Product): Form
  {
    Form(p.name, p.priceNow, p.priceOriginal, p.discount, p.buyLink, Join(p.description, '\n'))
  }

  // ---------------------------------------------------------------------
  // The buttons

  /** `clear_form`: empty widgets, no picture, back to adding. */
  function Clear(s: Session): Session
  {
    s.(form := EmptyForm, selectedImage := None, editingIndex := None)
  }

  /** `select_image`: a chosen path replaces the picture; cancelling the dialog (empty path) keeps it. */
  function PickImage(s: Session, path: string): Session
  {
    if path != "" then s.(selectedImage := Some(path)) else s
  }

  /** `add_product`, with the copy of the picture and the QR library as parameters. */
  function Add(s: Session, copyOk: bool, qr: QrEnv): (Session, Outcome)
  {
    match AddError(s.form, s.selectedImage)
    case Some(msg) => (s, Error(msg))
    case None =>
      if !copyOk then (s, Raised(CopyFailed))
      else Added(s, s.selectedImage.value, GenerateId(Trim(s.form.name, Python)), qr)
  }

  /** What an accepted `add_product` does once the picture `source` is copied under the identifier `id`. */
  function Added(s: Session, source: string, id: string, qr: QrEnv): (Session, Outcome)
  {
    var assets := s.assets[ImageFile(id, source) := ImageCopy(source)];
    var link := Trim(s.form.buyLink, Python);
    var assets' := if QrMade(qr) then assets[QrFile(id) := QrCode(link)] else assets;
    var qrPath := if QrMade(qr) then AssetRef(QrFile(id)) else "";
    var products := s.products + [NewProduct(s.form, id, source, qrPath)];
    (Clear(s.(products := products, assets := assets', store := Saved(products))),
     Info("Đã thêm sản phẩm: " + Trim(s.form.name, Python)))
  }

  /**
   * `update_product` for the record at `editingIndex`. The text fields are
   * overwritten in memory first, so a failing copy of a new picture leaves
   * the record changed in memory but not saved.
   */
  function Update(s: Session, copyOk: bool, qr: QrEnv): (Session, Outcome)
    requires s.editingIndex.Some?
  {
    var i := s.editingIndex.value;
    if !UpdateAllowed(s.form) then (s, Error(Incomplete))
    else if i >= |s.products| then (s, Raised(StaleIndex))
    else
      var p := s.products[i];
      var p1 := Overwrite(p, s.form);
      if s.selectedImage.Some? && s.selectedImage.value != "" && !copyOk then
        (s.(products := s.products[i := p1]), Raised(CopyFailed))
      else Updated(s, i, qr)
  }

  /** The picture an update copies: the chosen path, or none (empty). */
  function UpdateSource(s: Session): string
  {
    if s.selectedImage.Some? then s.selectedImage.value else ""
  }

  /** The files an update writes for identifier `id`: the chosen picture, if any, then the QR code of `link` when one is made. */
  function UpdateFiles(assets: map<string, Asset>, id: string, source: string, link: string, qr: QrEnv): map<string, Asset>
  {
    var a := if source != "" then assets[ImageFile(id, source) := ImageCopy(source)] else assets;
    if QrMade(qr) then a[QrFile(id) := QrCode(link)] else a
  }

  /** What an accepted `update_product` of record `i` does once any new picture is copied. */
  function Updated(s: Session, i: nat, qr: QrEnv): (Session, Outcome)
    requires i < |s.products|
  {
    var p := s.products[i];
    var p1 := Overwrite(p, s.form);
    var source := UpdateSource(s);
    var copied := source != "";
    var p2 := if copied then p1.(image := AssetRef(ImageFile(p.id, source))) else p1;
    var assets' := UpdateFiles(s.assets, p.id, source, p1.buyLink, qr);
    var p3 := if QrMade(qr) then p2.(qrImage := AssetRef(QrFile(p.id))) else p2;
    var products := s.products[i := p3];
    (Clear(s.(products := products, assets := assets', store := Saved(products))),
     Info("Đã cập nhật sản phẩm: " + p1.name))
  }

  /** `save_product`: update while a record is being edited, add otherwise. */
  function Save(s: Session, copyOk: bool, qr: QrEnv): (Session, Outcome)
  {
    if s.editingIndex.Some? then Update(s, copyOk, qr) else Add(s, copyOk, qr)
  }

  /** The list row chosen, if any, is a row of the list (the list box always shows the products). */
  predicate ValidSelection(s: Session, selection: Option<nat>) {
    selection.Some? ==> selection.value < |s.products|
  }

  /** `edit_product` as written: it records the index and then calls `clear_form`, which forgets it again. */
  function EditAsWritten(s: Session, selection: Option<nat>): (Session, Outcome)
    requires ValidSelection(s, selection)
  {
    match selection
    case None => (s, Warning(NoEditSelection))
    case Some(i) =>
      var marked := s.(editingIndex := Some(i));
      (Clear(marked).(form := FormOf(s.products[i])), Quiet)
  }

  /** `edit_product` as intended: clear the form first, then record the index and fill the widgets. */
  function Edit(s: Session, selection: Option<nat>): (Session, Outcome)
    requires ValidSelection(s, selection)
  {
    match selection
    case None => (s, Warning(NoEditSelection))
    case Some(i) => (Clear(s).(editingIndex := Some(i), form := FormOf(s.products[i])), Quiet)
  }

  /**
   * What lies at the paths `delete_product` may remove. An asset file in the
   * map can be removed exactly when `removable` says so. Any other resolved
   * path (relative to the parent of the script directory) is described by
   * `other`: `None` when nothing is there, `Some(ok)` when something is there
   * (a file outside `aff-data/`, a directory) whose removal succeeds iff `ok`.
   */
  datatype Disk = Disk(removable: string -> bool, other: string -> Option<bool>)

  /** One existence test and removal for a stored reference: the asset files left, or `None` when the removal raises. */
  function RemoveAt(assets: map<string, Asset>, reference: string, disk: Disk): (r: Option<map<string, Asset>>)
    ensures r.Some? ==> r.value.Keys <= assets.Keys && forall k :: k in r.value ==> r.value[k] == assets[k]
    ensures r.Some? ==> forall k :: k in assets && Some(k) != AssetKey(reference) ==> k in r.value
    ensures var key := AssetKey(reference);
      key.Some? && key.value in assets ==> (r.Some? <==> disk.removable(key.value)) && (r.Some? ==> key.value !in r.value)
    ensures var key := AssetKey(reference);
      key.None? || key.value !in assets ==>
        (r.None? <==> disk.other(RemoveAll(reference, "../")) == Some(false)) && (r.Some? ==> r.value == assets)
  {
    var key := AssetKey(reference);
    if key.Some? && key.value in assets then
      (if disk.removable(key.value) then Some(assets - {key.value}) else None)
    else if disk.other(RemoveAll(reference, "../")) == Some(false) then None
    else Some(assets)
  }

  /**
   * The asset files `delete_product` removes: the picture, then the QR code
   * when the record has one. A removal that raises is caught and skips the
   * rest, so a picture that cannot be removed keeps the QR code as well.
   */
  function RemoveFiles(assets: map<string, Asset>, p: Product, disk: Disk): (r: map<string, Asset>)
    ensures r.Keys <= assets.Keys
    ensures forall k :: k in r ==> r[k] == assets[k]
    ensures forall k :: k in assets && Some(k) != AssetKey(p.image) && Some(k) != AssetKey(p.qrImage) ==> k in r
    ensures RemoveAt(assets, p.image, disk).None? ==> r == assets
    ensures var img := AssetKey(p.image);
      img.Some? && img.value in assets && disk.removable(img.value) ==> img.value !in r
    ensures var q := AssetKey(p.qrImage);
      RemoveAt(assets, p.image, disk).Some? && p.qrImage != "" && q.Some? && q.value in assets && disk.removable(q.value)
      ==> q.value !in r
    ensures p.qrImage == "" ==> forall k :: k in assets && Some(k) != AssetKey(p.image) ==> k in r
  {
    match RemoveAt(assets, p.image, disk)
    case None => assets
    case Some(a1) =>
      if p.qrImage == "" then a1
      else match RemoveAt(a1, p.qrImage, disk)
        case None => a1
        case Some(a2) => a2
  }

  /**
   * A record with a blank picture reference keeps all its files: the blank
   * reference resolves to the folder above the script directory, whose
   * removal as a file raises, and that skips the QR code.
   */
  lemma BlankPictureKeepsFiles(assets: map<string, Asset>, p: Product, disk: Disk)
    requires p.image == "" && disk.other("") == Some(false)
    ensures RemoveFiles(assets, p, disk) == assets
  {
    assert RemoveAll("", "../") == "";
    assert AssetKey("").None?;
  }

  /** `delete_product`, with the confirmation answer and what lies at each path as parameters. */
  function Delete(s: Session, selection: Option<nat>, confirmed: bool, disk: Disk): (Session, Outcome)
    requires ValidSelection(s, selection)
  {
    match selection
    case None => (s, Warning(NoDeleteSelection))
    case Some(i) =>
      if !confirmed then (s, Quiet)
      else
        var products := s.products[..i] + s.products[i + 1..];
        (s.(products := products, assets := RemoveFiles(s.assets, s.products[i], disk),
            store := Saved(products)), Info(Deleted))
  }

  // ---------------------------------------------------------------------
  // Properties of the steps

  /** A new record's identifier is the slug of its name, its picture reference names its picture file, its lines are good. */
  lemma NewProductFacts(f: Form, id: string, source: string, qrPath: string)
    requires id == GenerateId(Trim(f.name, Python))
    ensures var p := NewProduct(f, id, source, qrPath);
      && p.id == GenerateId(p.name) && IsSlug(p.id)
      && AssetKey(p.image) == Some(ImageFile(p.id, source))
      && '/' !in QrFile(p.id) && AssetKey(AssetRef(QrFile(p.id))) == Some(QrFile(p.id))
      && GoodLines(p.description)
  {
    GenerateIdIsSlug(Trim(f.name, Python));
    FileNamesFlat(id, source);
    AssetKeyOfRef(ImageFile(id, source));
    AssetKeyOfRef(QrFile(id));
    LinesGood(f.description);
  }

  /** An accepted add is the commit step under the slug of the trimmed name. */
  lemma AddIsAdded(s: Session, copyOk: bool, qr: QrEnv)
    requires AddError(s.form, s.selectedImage).None? && copyOk
    ensures Add(s, copyOk, qr) == Added(s, s.selectedImage.value, GenerateId(Trim(s.form.name, Python)), qr)
  {
  }

  /** The commit step appends one record, keeps the others, and writes the picture and the QR code. */
  lemma AddedRecord(s: Session, source: string, id: string, qr: QrEnv)
    ensures var (s', o) := Added(s, source, id, qr);
      && o.Info?
      && |s'.products| == |s.products| + 1
      && s'.products[..|s.products|] == s.products
      && var p := s'.products[|s.products|];
         && p == NewProduct(s.form, id, source, p.qrImage)
         && ImageFile(id, source) in s'.assets && s'.assets[ImageFile(id, source)] == ImageCopy(source)
         && (p.qrImage != "" <==> QrMade(qr))
         && (QrMade(qr) ==> p.qrImage == AssetRef(QrFile(id)) && s'.assets[QrFile(id)] == QrCode(p.buyLink))
  {
    ImageNotQr(id, source);
    var ps := Added(s, source, id, qr).0.products;
    assert ps[..|s.products|] == s.products;
    assert AssetRef(QrFile(id)) != "" by { assert |AssetRef(QrFile(id))| > 0; }
  }

  /** The commit step touches no file but the picture and the QR code. */
  lemma AddedFrame(s: Session, source: string, id: string, qr: QrEnv)
    ensures var s' := Added(s, source, id, qr).0;
      forall k :: k in s.assets && k != ImageFile(id, source) && k != QrFile(id) ==>
        k in s'.assets && s'.assets[k] == s.assets[k]
  {
  }

  /** An accepted add appends one record, keeps the others, and writes its picture and QR code. */
  lemma AddRecord(s: Session, copyOk: bool, qr: QrEnv)
    requires AddError(s.form, s.selectedImage).None? && copyOk
    ensures var (s', o) := Add(s, copyOk, qr);
      && o.Info?
      && |s'.products| == |s.products| + 1
      && s'.products[..|s.products|] == s.products
      && var p := s'.products[|s.products|];
         && p.id == GenerateId(p.name) && IsSlug(p.id)
         && AssetKey(p.image).Some? && AssetKey(p.image).value in s'.assets
         && s'.assets[AssetKey(p.image).value] == ImageCopy(s.selectedImage.value)
         && (p.qrImage != "" <==> QrMade(qr))
         && (QrMade(qr) ==> AssetKey(p.qrImage) == Some(QrFile(p.id)) && s'.assets[QrFile(p.id)] == QrCode(p.buyLink))
         && GoodLines(p.description)
  {
    var source := s.selectedImage.value;
    var id := GenerateId(Trim(s.form.name, Python));
    AddIsAdded(s, copyOk, qr);
    AddedRecord(s, source, id, qr);
    var p := Added(s, source, id, qr).0.products[|s.products|];
    NewProductFacts(s.form, id, source, p.qrImage);
  }

  /** The picture and the QR code of one identifier are different files. */
  lemma ImageNotQr(id: string, source: string)
    ensures ImageFile(id, source) != QrFile(id)
  {
    var e := Ext(source);
    if e == [] {
      assert |ImageFile(id, source)| < |QrFile(id)|;
    } else {
      assert ImageFile(id, source)[|id|] == '.';
      assert QrFile(id)[|id|] == '_';
    }
  }

  /** A rejected or failed add changes nothing at all. */
  lemma AddRejected(s: Session, copyOk: bool, qr: QrEnv)
    requires AddError(s.form, s.selectedImage).Some? || !copyOk
    ensures Add(s, copyOk, qr).0 == s
    ensures Add(s, copyOk, qr).1.Error? <==> AddError(s.form, s.selectedImage).Some?
  {
  }

  /** Adding touches no file but the new picture and QR code, and no existing record. */
  lemma AddFrame(s: Session, copyOk: bool, qr: QrEnv)
    requires AddError(s.form, s.selectedImage).None? && copyOk
    ensures var s' := Add(s, copyOk, qr).0;
      var id := GenerateId(Trim(s.form.name, Python));
      forall k :: k in s.assets && k != ImageFile(id, s.selectedImage.value) && k != QrFile(id) ==>
        k in s'.assets && s'.assets[k] == s.assets[k]
  {
    AddIsAdded(s, copyOk, qr);
    AddedFrame(s, s.selectedImage.value, GenerateId(Trim(s.form.name, Python)), qr);
  }

  /** Deleting removes exactly the chosen record and keeps the order of the others. */
  lemma DeleteRecord(s: Session, i: nat, disk: Disk)
    requires i < |s.products|
    ensures var s' := Delete(s, Some(i), true, disk).0;
      && |s'.products| == |s.products| - 1
      && (forall k :: 0 <= k < i ==> s'.products[k] == s.products[k])
      && (forall k :: i <= k < |s'.products| ==> s'.products[k] == s.products[k + 1])
      && s'.assets.Keys <= s.assets.Keys
      && Consistent(s')
  {
  }

  /** The files a delete removes are only the ones its record names. */
  lemma DeleteFrame(s: Session, i: nat, disk: Disk)
    requires i < |s.products|
    ensures var s' := Delete(s, Some(i), true, disk).0;
      var p := s.products[i];
      forall k :: k in s.assets && Some(k) != AssetKey(p.image) && Some(k) != AssetKey(p.qrImage) ==>
        k in s'.assets
  {
  }

  /** Deleting a record just added removes its picture (when the removal succeeds). */
  lemma AddThenDelete(s: Session, qr: QrEnv, disk: Disk)
    requires AddError(s.form, s.selectedImage).None?
    ensures var s1 := Add(s, true, qr).0;
      && |s1.products| == |s.products| + 1
      && var p := s1.products[|s.products|];
         var s2 := Delete(s1, Some(|s.products|), true, disk).0;
         && s2.products == s.products
         && AssetKey(p.image).Some?
         && (disk.removable(AssetKey(p.image).value) ==> AssetKey(p.image).value !in s2.assets)
  {
    var s1 := Add(s, true, qr).0;
    AddRecord(s, true, qr);
    assert s1.products[..|s.products|] == s.products && |s1.products| == |s.products| + 1;
    var p := s1.products[|s.products|];
    assert AssetKey(p.image).Some? && AssetKey(p.image).value in s1.assets;
    DeleteLast(s1, disk);
  }

  lemma DeleteLast(s: Session, disk: Disk)
    requires |s.products| > 0
    ensures var n := |s.products| - 1;
      var p := s.products[n];
      var s' := Delete(s, Some(n), true, disk).0;
      && s'.products == s.products[..n]
      && (AssetKey(p.image).Some? && AssetKey(p.image).value in s.assets && disk.removable(AssetKey(p.image).value)
          ==> AssetKey(p.image).value !in s'.assets)
  {
    var n := |s.products| - 1;
    assert s.products[..n] + s.products[n + 1..] == s.products[..n];
  }

  /** Declining the confirmation, or choosing nothing, changes nothing. */
  lemma DeleteDeclined(s: Session, selection: Option<nat>, disk: Disk)
    requires ValidSelection(s, selection)
    ensures Delete(s, selection, false, disk).0 == s
    ensures Delete(s, None, true, disk) == (s, Warning(NoDeleteSelection))
  {
  }

  /**
   * The record the commit step of an update writes: the text fields are the
   * trimmed form, the picture changes only when a new one was chosen and the
   * QR code only when one was made; no other record changes.
   */
  lemma UpdatedRecord(s: Session, i: nat, qr: QrEnv)
    requires i < |s.products|
    ensures var (s', o) := Updated(s, i, qr);
      var p := s.products[i];
      && o == Info("Đã cập nhật sản phẩm: " + Trim(s.form.name, Python))
      && |s'.products| == |s.products|
      && (forall k :: 0 <= k < |s.products| && k != i ==> s'.products[k] == s.products[k])
      && Consistent(s') && s'.editingIndex.None? && s'.selectedImage.None? && s'.form == EmptyForm
      && var p' := s'.products[i];
         && p'.id == p.id
         && p'.name == Trim(s.form.name, Python) && p'.priceNow == Trim(s.form.priceNow, Python)
         && p'.priceOriginal == Trim(s.form.priceOriginal, Python) && p'.discount == Trim(s.form.discount, Python)
         && p'.buyLink == Trim(s.form.buyLink, Python) && p'.description == Lines(s.form.description)
         && (UpdateSource(s) != "" ==> p'.image == AssetRef(ImageFile(p.id, UpdateSource(s))))
         && (UpdateSource(s) == "" ==> p'.image == p.image)
         && (QrMade(qr) ==> p'.qrImage == AssetRef(QrFile(p.id)))
         && (!QrMade(qr) ==> p'.qrImage == p.qrImage)
  {
    var p := s.products[i];
    var p1 := Overwrite(p, s.form);
    var source := UpdateSource(s);
    var p2 := if source != "" then p1.(image := AssetRef(ImageFile(p.id, source))) else p1;
    var p3 := if QrMade(qr) then p2.(qrImage := AssetRef(QrFile(p.id))) else p2;
    var s' := Updated(s, i, qr).0;
    assert s'.products == s.products[i := p3];
  }

  /** The files the commit step of an update writes: the new picture, the new QR code, nothing else. */
  lemma UpdatedFiles(s: Session, i: nat, qr: QrEnv)
    requires i < |s.products|
    ensures var s' := Updated(s, i, qr).0;
      var id := s.products[i].id;
      var source := UpdateSource(s);
      && (source != "" ==> ImageFile(id, source) in s'.assets && s'.assets[ImageFile(id, source)] == ImageCopy(source))
      && (QrMade(qr) ==> QrFile(id) in s'.assets && s'.assets[QrFile(id)] == QrCode(Trim(s.form.buyLink, Python)))
      && s.assets.Keys <= s'.assets.Keys
      && (forall k :: k in s.assets && k != ImageFile(id, source) && k != QrFile(id) ==> s'.assets[k] == s.assets[k])
      && (source == "" && !QrMade(qr) ==> s'.assets == s.assets)
  {
    var id := s.products[i].id;
    var source := UpdateSource(s);
    var link := Trim(s.form.buyLink, Python);
    assert Updated(s, i, qr).0.assets == UpdateFiles(s.assets, id, source, link, qr);
    ImageNotQr(id, source);
    UpdateFilesWrite(s.assets, ImageFile(id, source), QrFile(id), source, link, qr, UpdateFiles(s.assets, id, source, link, qr));
  }

  /** Writing at most two different files keeps every other one. */
  lemma UpdateFilesWrite(assets: map<string, Asset>, img: string, qrf: string, source: string, link: string, qr: QrEnv,
                         r: map<string, Asset>)
    requires img != qrf
    requires r == (var a := if source != "" then assets[img := ImageCopy(source)] else assets;
                   if QrMade(qr) then a[qrf := QrCode(link)] else a)
    ensures source != "" ==> img in r && r[img] == ImageCopy(source)
    ensures QrMade(qr) ==> qrf in r && r[qrf] == QrCode(link)
    ensures assets.Keys <= r.Keys
    ensures forall k :: k in assets && k != img && k != qrf ==> r[k] == assets[k]
    ensures source == "" && !QrMade(qr) ==> r == assets
  {
  }

  /** An accepted update of an existing record is the commit step, which keeps the identifier and every other record. */
  lemma UpdateRecord(s: Session, copyOk: bool, qr: QrEnv)
    requires s.editingIndex.Some? && s.editingIndex.value < |s.products|
    requires UpdateAllowed(s.form) && copyOk
    ensures Update(s, copyOk, qr) == Updated(s, s.editingIndex.value, qr)
    ensures var (s', o) := Update(s, copyOk, qr);
      var i := s.editingIndex.value;
      && o.Info?
      && |s'.products| == |s.products|
      && s'.products[i].id == s.products[i].id
      && s'.products[i] == Overwrite(s.products[i], s.form).(image := s'.products[i].image, qrImage := s'.products[i].qrImage)
      && (forall k :: 0 <= k < |s.products| && k != i ==> s'.products[k] == s.products[k])
      && Consistent(s') && s'.editingIndex.None?
  {
  }

  /**
   * The one step that leaves memory and files apart: a failing copy during an
   * update has already overwritten the record in memory but saves nothing.
   */
  lemma UpdateCopyFailure(s: Session, qr: QrEnv)
    requires s.editingIndex.Some? && s.editingIndex.value < |s.products|
    requires UpdateAllowed(s.form) && s.selectedImage.Some? && s.selectedImage.value != ""
    requires Consistent(s)
    ensures var (s', o) := Update(s, false, qr);
      var i := s.editingIndex.value;
      && o == Raised(CopyFailed)
      && s'.products[i] == Overwrite(s.products[i], s.form)
      && s'.store == s.store
      && (Consistent(s') <==> Overwrite(s.products[i], s.form) == s.products[i])
  {
    var (s', o) := Update(s, false, qr);
    var i := s.editingIndex.value;
    if Consistent(s') {
      assert s'.products[i] == Load(s.store.json)[i] == s.products[i];
    }
  }

  /** Every step other than a failing update copy keeps the files in step with the list. */
  lemma StepsConsistent(s: Session, copyOk: bool, qr: QrEnv, selection: Option<nat>, confirmed: bool,
                        disk: Disk, path: string)
    requires Consistent(s) && ValidSelection(s, selection)
    ensures Consistent(Add(s, copyOk, qr).0)
    ensures s.editingIndex.Some? && copyOk ==> Consistent(Update(s, copyOk, qr).0)
    ensures Consistent(Delete(s, selection, confirmed, disk).0)
    ensures Consistent(Edit(s, selection).0) && Consistent(EditAsWritten(s, selection).0)
    ensures Consistent(Clear(s)) && Consistent(PickImage(s, path))
  {
  }

  /** A record as the editor writes it: trimmed non-empty name, price and link, trimmed fields, good lines. */
  predicate WellFormed(p: Product) {
    && p.name != "" && p.priceNow != "" && p.buyLink != ""
    && Trim(p.name, Python) == p.name && Trim(p.priceNow, Python) == p.priceNow
    && Trim(p.priceOriginal, Python) == p.priceOriginal && Trim(p.discount, Python) == p.discount
    && Trim(p.buyLink, Python) == p.buyLink
    && GoodLines(p.description)
  }

  /** Records that `add_product` creates are well formed. */
  lemma AddWellFormed(s: Session, copyOk: bool, qr: QrEnv)
    requires AddError(s.form, s.selectedImage).None? && copyOk
    ensures WellFormed(Add(s, copyOk, qr).0.products[|s.products|])
  {
    var f := s.form;
    TrimIdempotent(f.name, Python);
    TrimIdempotent(f.priceNow, Python);
    TrimIdempotent(f.priceOriginal, Python);
    TrimIdempotent(f.discount, Python);
    TrimIdempotent(f.buyLink, Python);
    LinesGood(f.description);
  }

  /**
   * With the intended `edit_product`, opening a well-formed record and saving
   * without touching the form (and without a new QR code) leaves the list as it was.
   */
  lemma EditSaveUnchanged(s: Session, i: nat, qr: QrEnv)
    requires i < |s.products| && WellFormed(s.products[i])
    requires QrMade(qr) ==> s.products[i].qrImage == AssetRef(QrFile(s.products[i].id))
    ensures var s1 := Edit(s, Some(i)).0;
      var (s2, o) := Save(s1, true, qr);
      s1.editingIndex == Some(i) && o.Info? && s2.products == s.products
  {
    var p := s.products[i];
    LinesJoin(p.description);
    var s1 := Edit(s, Some(i)).0;
    assert Overwrite(p, s1.form) == p;
    assert s.products[i := p] == s.products;
  }

  /**
   * With `edit_product` as written the index is always forgotten, so the save
   * button adds instead of updating: unless a new picture is chosen it
   * refuses for lack of one, and with a new picture it appends a second record.
   */
  lemma EditAsWrittenNeverUpdates(s: Session, i: nat, copyOk: bool, qr: QrEnv, path: string)
    requires i < |s.products|
    ensures var s1 := EditAsWritten(s, Some(i)).0;
      && s1.editingIndex.None?
      && Save(s1, copyOk, qr) == Add(s1, copyOk, qr)
      && Save(s1, copyOk, qr).0 == s1
      && Save(s1, copyOk, qr).1.Error?
      && (UpdateAllowed(s1.form) ==> Save(s1, copyOk, qr).1 == Error(NoImage))
      && (var s2 := PickImage(s1, path);
          path != "" && copyOk && UpdateAllowed(s1.form) ==> |Save(s2, copyOk, qr).0.products| == |s.products| + 1)
  {
  }

  // ---------------------------------------------------------------------
  // The editor window

  /** `ProductManagerApp`: the same state held in fields and changed in place by the buttons. */
  class ProductManager {
    var products: seq<Product>
    var form: Form
    var selectedImage: Option<string>
    var editingIndex: Option<nat>
    var assets: map<string, Asset>
    var store: Store
    /** Whether `qrcode` and `PIL` could be imported. */
    const qrAvailable: bool

    function State(): Session
      reads this
    {
      Session(products, form, selectedImage, editingIndex, assets, store)
    }

    /** `__init__`: the list is loaded from `products.json`; nothing is chosen or being edited. */
    constructor (stored: Store, files: map<string, Asset>, qr: bool)
      ensures State() == Session(Load(stored.json), EmptyForm, None, None, files, stored)
      ensures qrAvailable == qr
    {
      products := Load(stored.json);
      form := EmptyForm;
      selectedImage := None;
      editingIndex := None;
      assets := files;
      store := stored;
      qrAvailable := qr;
    }

    /** The user typing into the entry widgets. */
    method EnterForm(f: Form)
      modifies this
      ensures State() == old(State()).(form := f)
    {
      form := f;
    }

    /** `save_products`. */
    method SaveProducts()
      modifies this
      ensures State() == old(State()).(store := Saved(old(products)))
    {
      store := Store(Some(products), Some(Mirror(MirrorHeader, MirrorBinding, products)));
    }

    /** `clear_form`. */
    method ClearForm()
      modifies this
      ensures State() == Clear(old(State()))
    {
      form := EmptyForm;
      selectedImage := None;
      editingIndex := None;
    }

    /** `select_image`, with the path the file dialog returns (empty when cancelled). */
    method SelectImage(path: string)
      modifies this
      ensures State() == PickImage(old(State()), path)
    {
      if path != "" {
        selectedImage := Some(path);
      }
    }

    /** `add_product`, with the outcome of the picture copy and of making the QR code as parameters. */
    method AddProduct(copyOk: bool, qrSucceeds: bool) returns (o: Outcome)
      modifies this
      ensures (State(), o) == Add(old(State()), copyOk, QrEnv(qrAvailable, qrSucceeds))
    {
      var name := Trim(form.name, Python);
      var priceNow := Trim(form.priceNow, Python);
      var buyLink := Trim(form.buyLink, Python);
      if name == "" { return Error(NoName); }
      if priceNow == "" { return Error(NoPrice); }
      if buyLink == "" { return Error(NoLink); }
      if selectedImage.None? || selectedImage.value == "" { return Error(NoImage); }
      if !copyOk { return Raised(CopyFailed); }
      ghost var before := State();
      o := CommitProduct(GenerateId(name), selectedImage.value, qrSucceeds);
      AddIsAdded(before, copyOk, QrEnv(qrAvailable, qrSucceeds));
    }

    /** The accepted half of `add_product`: the picture is already copied as `source` under the identifier `id`. */
    method CommitProduct(id: string, source: string, qrSucceeds: bool) returns (o: Outcome)
      requires Trim(form.buyLink, Python) != ""
      modifies this
      ensures (State(), o) == Added(old(State()), source, id, QrEnv(qrAvailable, qrSucceeds))
    {
      var name := Trim(form.name, Python);
      var buyLink := Trim(form.buyLink, Python);
      var file := ImageFile(id, source);
      assets := assets[file := ImageCopy(source)];
      var qrPath := "";
      if qrAvailable && buyLink != "" && qrSucceeds {
        assets := assets[QrFile(id) := QrCode(buyLink)];
        qrPath := AssetRef(QrFile(id));
      }
      var p := Product(id, name, AssetRef(file), qrPath, Trim(form.priceNow, Python), Trim(form.priceOriginal, Python),
        Trim(form.discount, Python), buyLink, Lines(form.description));
      products := products + [p];
      SaveProducts();
      o := Info("Đã thêm sản phẩm: " + name);
      ClearForm();
    }

    /** `update_product` for the record at `editingIndex`. */
    method UpdateProduct(copyOk: bool, qrSucceeds: bool) returns (o: Outcome)
      requires editingIndex.Some?
      modifies this
      ensures (State(), o) == Update(old(State()), copyOk, QrEnv(qrAvailable, qrSucceeds))
    {
      var name := Trim(form.name, Python);
      var priceNow := Trim(form.priceNow, Python);
      var buyLink := Trim(form.buyLink, Python);
      if name == "" || priceNow == "" || buyLink == "" { return Error(Incomplete); }
      var i := editingIndex.value;
      if i >= |products| { return Raised(StaleIndex); }
      // The record is overwritten in memory before the picture is copied.
      if selectedImage.Some? && selectedImage.value != "" && !copyOk {
        products := products[i := Overwrite(products[i], form)];
        return Raised(CopyFailed);
      }
      o := RewriteProduct(i, qrSucceeds);
    }

    /** The accepted half of `update_product`: record `i` is overwritten, with the new picture and QR code if any. */
    method RewriteProduct(i: nat, qrSucceeds: bool) returns (o: Outcome)
      requires i < |products| && Trim(form.buyLink, Python) != ""
      modifies this
      ensures (State(), o) == Updated(old(State()), i, QrEnv(qrAvailable, qrSucceeds))
    {
      var buyLink := Trim(form.buyLink, Python);
      var p := Overwrite(products[i], form);
      if selectedImage.Some? && selectedImage.value != "" {
        var file := ImageFile(p.id, selectedImage.value);
        assets := assets[file := ImageCopy(selectedImage.value)];
        p := p.(image := AssetRef(file));
      }
      if qrAvailable && buyLink != "" && qrSucceeds {
        assets := assets[QrFile(p.id) := QrCode(buyLink)];
        p := p.(qrImage := AssetRef(QrFile(p.id)));
      }
      products := products[i := p];
      SaveProducts();
      o := Info("Đã cập nhật sản phẩm: " + p.name);
      ClearForm();
    }

    /** `save_product`. */
    method SaveProduct(copyOk: bool, qrSucceeds: bool) returns (o: Outcome)
      modifies this
      ensures (State(), o) == Save(old(State()), copyOk, QrEnv(qrAvailable, qrSucceeds))
    {
      if editingIndex.Some? {
        o := UpdateProduct(copyOk, qrSucceeds);
      } else {
        o := AddProduct(copyOk, qrSucceeds);
      }
    }

    /** `edit_product` as written. */
    method EditProductAsWritten(selection: Option<nat>) returns (o: Outcome)
      requires ValidSelection(State(), selection)
      modifies this
      ensures (State(), o) == EditAsWritten(old(State()), selection)
    {
      if selection.None? { return Warning(NoEditSelection); }
      var index := selection.value;
      var product := products[index];
      editingIndex := Some(index);
      ClearForm();
      form := FormOf(product);
      o := Quiet;
    }

    /** `edit_product` with the form cleared before the index is recorded. */
    method EditProduct(selection: Option<nat>) returns (o: Outcome)
      requires ValidSelection(State(), selection)
      modifies this
      ensures (State(), o) == Edit(old(State()), selection)
    {
      if selection.None? { return Warning(NoEditSelection); }
      var index := selection.value;
      var product := products[index];
      ClearForm();
      editingIndex := Some(index);
      form := FormOf(product);
      o := Quiet;
    }

    /** `delete_product`, with the answer to the confirmation and what lies at each path as parameters. */
    method DeleteProduct(selection: Option<nat>, confirmed: bool, disk: Disk) returns (o: Outcome)
      requires ValidSelection(State(), selection)
      modifies this
      ensures (State(), o) == Delete(old(State()), selection, confirmed, disk)
    {
      if selection.None? { return Warning(NoDeleteSelection); }
      var index := selection.value;
      var product := products[index];
      if !confirmed { return Quiet; }
      var img := AssetKey(product.image);
      var failed := false;
      if img.Some? && img.value in assets {
        if disk.removable(img.value) { assets := assets - {img.value}; } else { failed := true; }
      } else if disk.other(RemoveAll(product.image, "../")) == Some(false) {
        failed := true;
      }
      if !failed && product.qrImage != "" {
        var q := AssetKey(product.qrImage);
        if q.Some? && q.value in assets && disk.removable(q.value) { assets := assets - {q.value}; }
      }
      products := products[..index] + products[index + 1..];
      SaveProducts();
      o := Info(Deleted);
    }
  }
}
