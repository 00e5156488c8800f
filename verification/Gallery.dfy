/**
 File uploads being completed by concurrent transactions, and what they bind the files to: product
 galleries, one image per file, and user avatars.
 */
module Gallery {
  import opened Wrappers

  type FileId = nat
  type ImageId = nat
  type OwnerId = nat
  type TxId = nat

  datatype OwnerType = User | Product | Order | Payment

  datatype FileStatus = Pending | Ready | Failed

  datatype File = File(ownerType: OwnerType, owner: OwnerId, status: FileStatus)

  datatype Image = Image(product: OwnerId, file: FileId, sortOrder: nat, isPrimary: bool)

  datatype Pc =
    | Waiting                                // begun; about to lock the file row
    | HasFile                                // file row locked and fit to complete
    | HasProduct                             // product row locked
    | LinkFound                              // an image for this product and file exists already
    | LinkInserted(id: ImageId, image: Image) // image inserted, uncommitted
    | AvatarWritten                          // user row updated, uncommitted
    | Unbound                                // the owner is of a kind that files are not bound to

  datatype Tx = Tx(file: FileId, pc: Pc)

  datatype State = State(
    files: map<FileId, File>,
    products: set<OwnerId>,
    avatars: map<OwnerId, Option<FileId>>,
    images: map<ImageId, Image>,
    txs: map<TxId, Tx>)

  function Initially(products: set<OwnerId>, users: set<OwnerId>): State {
    State(map[], products, map u | u in users :: None, map[], map[])
  }

  datatype Label =
    | CreateFile(file: FileId, ownerType: OwnerType, owner: OwnerId)
    | DeleteFile(file: FileId)
    | Begin(tx: TxId, file: FileId)
    | LockFile(tx: TxId)
    | LockProduct(tx: TxId)
    | FindLink(tx: TxId)
    | InsertLink(tx: TxId, image: ImageId)
    | WriteAvatar(tx: TxId)
    | SkipBinding(tx: TxId)
    | Commit(tx: TxId)
    | Rollback(tx: TxId)

  // ---- rows held by open transactions ---------------------------------------------------------

  predicate HoldsFile(tx: Tx) { !tx.pc.Waiting? }

  predicate HoldsProduct(tx: Tx) { tx.pc.HasProduct? || tx.pc.LinkFound? || tx.pc.LinkInserted? }

  predicate HoldsUser(tx: Tx) { tx.pc.AvatarWritten? }

  predicate Bound(tx: Tx) {
    tx.pc.LinkFound? || tx.pc.LinkInserted? || tx.pc.AvatarWritten? || tx.pc.Unbound?
  }

  predicate TxIn(s: State, t: TxId) { t in s.txs && s.txs[t].file in s.files }

  function OwnerOf(s: State, t: TxId): OwnerId
    requires TxIn(s, t)
  {
    s.files[s.txs[t].file].owner
  }

  predicate OwnedBy(s: State, t: TxId, ownerType: OwnerType) {
    TxIn(s, t) && s.files[s.txs[t].file].ownerType == ownerType
  }

  ghost predicate FileFree(s: State, f: FileId) {
    forall u :: u in s.txs && HoldsFile(s.txs[u]) ==> s.txs[u].file != f
  }

  ghost predicate ProductFree(s: State, p: OwnerId) {
    forall u :: u in s.txs && HoldsProduct(s.txs[u]) && TxIn(s, u) ==> OwnerOf(s, u) != p
  }

  ghost predicate UserFree(s: State, o: OwnerId) {
    forall u :: u in s.txs && HoldsUser(s.txs[u]) && TxIn(s, u) ==> OwnerOf(s, u) != o
  }

  // ---- images ---------------------------------------------------------------------------------

  function ImagesOf(images: map<ImageId, Image>, p: OwnerId): set<ImageId> {
    set i | i in images && images[i].product == p
  }

  ghost predicate Linked(images: map<ImageId, Image>, p: OwnerId, f: FileId) {
    exists i :: i in images && images[i].product == p && images[i].file == f
  }

  /** The image a file gets: it goes to the end, and is the primary one if it is the first. */
  function NewImage(images: map<ImageId, Image>, p: OwnerId, f: FileId): Image {
    var existingCount := |ImagesOf(images, p)|;
    Image(p, f, existingCount, existingCount == 0)
  }

  ghost predicate Enabled(s: State, l: Label) {
    match l
    case CreateFile(f, _, _) => f !in s.files && (forall t :: t in s.txs ==> s.txs[t].file != f)
    case DeleteFile(f) => f in s.files && s.files[f].status == Pending && FileFree(s, f)
    case Begin(t, _) => t !in s.txs
    case LockFile(t) =>
      && TxIn(s, t) && s.txs[t].pc == Waiting && FileFree(s, s.txs[t].file)
      && s.files[s.txs[t].file].status != Failed
    case LockProduct(t) =>
      OwnedBy(s, t, Product) && s.txs[t].pc == HasFile && OwnerOf(s, t) in s.products && ProductFree(s, OwnerOf(s, t))
    case FindLink(t) =>
      TxIn(s, t) && s.txs[t].pc == HasProduct && Linked(s.images, OwnerOf(s, t), s.txs[t].file)
    case InsertLink(t, i) =>
      && TxIn(s, t) && s.txs[t].pc == HasProduct && !Linked(s.images, OwnerOf(s, t), s.txs[t].file)
      && i !in s.images && (forall u :: u in s.txs && s.txs[u].pc.LinkInserted? ==> s.txs[u].pc.id != i)
    case WriteAvatar(t) =>
      OwnedBy(s, t, User) && s.txs[t].pc == HasFile && OwnerOf(s, t) in s.avatars && UserFree(s, OwnerOf(s, t))
    case SkipBinding(t) =>
      TxIn(s, t) && s.txs[t].pc == HasFile && !OwnedBy(s, t, Product) && !OwnedBy(s, t, User)
    case Commit(t) => TxIn(s, t) && Bound(s.txs[t])
    case Rollback(t) => t in s.txs
  }

  function SetPc(s: State, t: TxId, pc: Pc): State
    requires t in s.txs
  {
    s.(txs := s.txs[t := s.txs[t].(pc := pc)])
  }

  function Next(s: State, l: Label): State
    requires Enabled(s, l)
  {
    match l
    case CreateFile(f, ownerType, owner) => s.(files := s.files[f := File(ownerType, owner, Pending)])
    case DeleteFile(f) => s.(files := s.files - {f})
    case Begin(t, f) => s.(txs := s.txs[t := Tx(f, Waiting)])
    case LockFile(t) => SetPc(s, t, HasFile)
    case LockProduct(t) => SetPc(s, t, HasProduct)
    case FindLink(t) => SetPc(s, t, LinkFound)
    case InsertLink(t, i) => SetPc(s, t, LinkInserted(i, NewImage(s.images, OwnerOf(s, t), s.txs[t].file)))
    case WriteAvatar(t) => SetPc(s, t, AvatarWritten)
    case SkipBinding(t) => SetPc(s, t, Unbound)
    case Commit(t) =>
      var tx, f := s.txs[t], s.files[s.txs[t].file];
      s.(txs := s.txs - {t},
         files := s.files[tx.file := f.(status := Ready)],
         images := if tx.pc.LinkInserted? then s.images[tx.pc.id := tx.pc.image] else s.images,
         avatars := if tx.pc.AvatarWritten? then s.avatars[f.owner := Some(tx.file)] else s.avatars)
    case Rollback(t) => s.(txs := s.txs - {t})
  }

  ghost function Exec(s: State, ls: seq<Label>): Option<State> {
    if ls == [] then Some(s) else
    var before := Exec(s, ls[..|ls| - 1]);
    if before.Some? && Enabled(before.value, ls[|ls| - 1]) then Some(Next(before.value, ls[|ls| - 1])) else None
  }

  // ---- what holds of the committed rows -------------------------------------------------------

  predicate Placed(images: map<ImageId, Image>, p: OwnerId, n: nat) {
    exists i :: i in images && images[i].product == p && images[i].sortOrder == n
  }

  /** Each product's sort orders are 0, 1, 2 and so on, each once, and only number 0 is primary. */
  ghost predicate GalleriesSound(images: map<ImageId, Image>) {
    && (forall i :: i in images ==>
          images[i].sortOrder < |ImagesOf(images, images[i].product)|
          && (images[i].isPrimary <==> images[i].sortOrder == 0))
    && (forall i, j :: (i in images && j in images && images[i].product == images[j].product
                        && images[i].sortOrder == images[j].sortOrder) ==> i == j)
    && (forall p, n: nat :: n < |ImagesOf(images, p)| ==> Placed(images, p, n))
  }

  /** An image shows a finished file of its product, and no file has two. */
  ghost predicate LinksSound(files: map<FileId, File>, images: map<ImageId, Image>) {
    && (forall i :: i in images ==>
          images[i].file in files && files[images[i].file] == File(Product, images[i].product, Ready))
    && (forall i, j :: i in images && j in images && images[i].file == images[j].file ==> i == j)
    && (forall f :: f in files && files[f].status == Ready && files[f].ownerType == Product ==>
          Linked(images, files[f].owner, f))
  }

  ghost predicate AvatarsSound(files: map<FileId, File>, avatars: map<OwnerId, Option<FileId>>) {
    forall u :: u in avatars && avatars[u].Some? ==>
      avatars[u].value in files && files[avatars[u].value] == File(User, u, Ready)
  }

  // ---- what holds of the open transactions ----------------------------------------------------

  ghost predicate TxsExclusive(files: map<FileId, File>, txs: map<TxId, Tx>) {
    forall t, u :: t in txs && u in txs && t != u ==>
      && (HoldsFile(txs[t]) && HoldsFile(txs[u]) ==> txs[t].file != txs[u].file)
      && (HoldsProduct(txs[t]) && HoldsProduct(txs[u]) && txs[t].file in files && txs[u].file in files ==>
            files[txs[t].file].owner != files[txs[u].file].owner)
      && (txs[t].pc.LinkInserted? && txs[u].pc.LinkInserted? ==> txs[t].pc.id != txs[u].pc.id)
  }

  /** What a transaction that holds its file knows about it, and about its product's images. */
  ghost predicate TxSound(files: map<FileId, File>, images: map<ImageId, Image>, tx: Tx) {
    HoldsFile(tx) ==>
      && tx.file in files
      && (HoldsProduct(tx) ==> files[tx.file].ownerType == Product)
      && (tx.pc.LinkFound? ==> Linked(images, files[tx.file].owner, tx.file))
      && (tx.pc.LinkInserted? ==>
            && tx.pc.image == NewImage(images, files[tx.file].owner, tx.file)
            && tx.pc.id !in images && !Linked(images, files[tx.file].owner, tx.file))
      && (tx.pc.AvatarWritten? ==> files[tx.file].ownerType == User)
      && (tx.pc.Unbound? ==> files[tx.file].ownerType != Product)
  }

  ghost predicate Sound(s: State) {
    && GalleriesSound(s.images) && LinksSound(s.files, s.images) && AvatarsSound(s.files, s.avatars)
    && TxsExclusive(s.files, s.txs)
    && forall t :: t in s.txs ==> TxSound(s.files, s.images, s.txs[t])
  }

  // ---- one image more -------------------------------------------------------------------------

  lemma ImagesOfGrow(images: map<ImageId, Image>, i: ImageId, image: Image, p: OwnerId)
    requires i !in images
    ensures ImagesOf(images[i := image], p) == ImagesOf(images, p) + if image.product == p then {i} else {}
    ensures |ImagesOf(images[i := image], p)| == |ImagesOf(images, p)| + if image.product == p then 1 else 0
  {}

  /** The new image takes the first free place; the others keep theirs. */
  lemma PlacesGrow(images: map<ImageId, Image>, i: ImageId, image: Image, q: OwnerId, n: nat)
    requires GalleriesSound(images) && i !in images && image.sortOrder == |ImagesOf(images, image.product)|
    requires n < |ImagesOf(images[i := image], q)|
    ensures Placed(images[i := image], q, n)
  {
    var after := images[i := image];
    ImagesOfGrow(images, i, image, q);
    if n < |ImagesOf(images, q)| {
      assert Placed(images, q, n);
      var j :| j in images && images[j].product == q && images[j].sortOrder == n;
      assert after[j] == images[j];
    } else {
      assert after[i].product == q && after[i].sortOrder == n;
    }
  }

  lemma GalleriesGrow(images: map<ImageId, Image>, i: ImageId, p: OwnerId, f: FileId)
    requires GalleriesSound(images) && i !in images
    ensures GalleriesSound(images[i := NewImage(images, p, f)])
  {
    var image := NewImage(images, p, f);
    var after := images[i := image];
    forall q ensures |ImagesOf(after, q)| == |ImagesOf(images, q)| + if p == q then 1 else 0 {
      ImagesOfGrow(images, i, image, q);
    }
    forall q, n: nat | n < |ImagesOf(after, q)| ensures Placed(after, q, n) {
      PlacesGrow(images, i, image, q, n);
    }
  }

  lemma LinksGrow(files: map<FileId, File>, images: map<ImageId, Image>, i: ImageId, f: FileId)
    requires LinksSound(files, images) && i !in images && f in files && files[f].ownerType == Product
    requires !Linked(images, files[f].owner, f)
    ensures LinksSound(files[f := files[f].(status := Ready)],
                       images[i := NewImage(images, files[f].owner, f)])
  {
    var p := files[f].owner;
    var after := images[i := NewImage(images, p, f)];
    var files' := files[f := files[f].(status := Ready)];
    forall g | g in files' && files'[g].status == Ready && files'[g].ownerType == Product
      ensures Linked(after, files'[g].owner, g)
    {
      if g == f {
        assert after[i].product == p && after[i].file == f;
      } else {
        var j :| j in images && images[j].product == files[g].owner && images[j].file == g;
        assert after[j] == images[j];
      }
    }
    assert forall j :: j in images ==> images[j].file != f;
  }

  /** Another product's images are none of a transaction's business. */
  lemma OthersUnmoved(files: map<FileId, File>, images: map<ImageId, Image>, i: ImageId, image: Image, tx: Tx)
    requires TxSound(files, images, tx) && i !in images && HoldsFile(tx)
    requires tx.pc.LinkInserted? ==> tx.pc.id != i
    requires HoldsProduct(tx) ==> files[tx.file].owner != image.product
    ensures TxSound(files, images[i := image], tx)
  {
    if HoldsProduct(tx) {
      var p := files[tx.file].owner;
      ImagesOfGrow(images, i, image, p);
      var after := images[i := image];
      if Linked(images, p, tx.file) {
        var j :| j in images && images[j].product == p && images[j].file == tx.file;
        assert after[j] == images[j];
      }
      if Linked(after, p, tx.file) {
        var j :| j in after && after[j].product == p && after[j].file == tx.file;
        assert images[j] == after[j];
      }
    }
  }

  // ---- every step -----------------------------------------------------------------------------

  /** Files of the same ids with the same owners. */
  ghost predicate OwnersKept(files: map<FileId, File>, files': map<FileId, File>, txs: map<TxId, Tx>) {
    forall t :: t in txs && HoldsFile(txs[t]) ==>
      && txs[t].file in files && txs[t].file in files'
      && files[txs[t].file].owner == files'[txs[t].file].owner
      && files[txs[t].file].ownerType == files'[txs[t].file].ownerType
  }

  lemma ExclusiveAfter(files: map<FileId, File>, files': map<FileId, File>, txs: map<TxId, Tx>)
    requires TxsExclusive(files, txs) && OwnersKept(files, files', txs)
    ensures TxsExclusive(files', txs)
  {}

  /** Uploads not yet finished may come and go, as long as nobody holds them. */
  lemma FilesMayChange(files: map<FileId, File>, files': map<FileId, File>, images: map<ImageId, Image>,
                       avatars: map<OwnerId, Option<FileId>>)
    requires LinksSound(files, images) && AvatarsSound(files, avatars)
    requires forall f :: f in files && files[f].status == Ready ==> f in files' && files'[f] == files[f]
    requires forall f :: f in files' && files'[f].status == Ready ==> f in files && files'[f] == files[f]
    ensures LinksSound(files', images) && AvatarsSound(files', avatars)
  {}

  lemma FileStepEffect(s: State, l: Label)
    requires Enabled(s, l) && (l.CreateFile? || l.DeleteFile?)
    ensures Next(s, l).(files := s.files) == s
    ensures forall f :: f in s.files && s.files[f].status == Ready ==>
      f in Next(s, l).files && Next(s, l).files[f] == s.files[f]
    ensures forall f :: f in Next(s, l).files && Next(s, l).files[f].status == Ready ==>
      f in s.files && Next(s, l).files[f] == s.files[f]
    ensures forall t :: t in s.txs && HoldsFile(s.txs[t]) && s.txs[t].file in s.files ==>
      s.txs[t].file in Next(s, l).files && Next(s, l).files[s.txs[t].file] == s.files[s.txs[t].file]
  {}

  lemma FileStepSound(s: State, l: Label)
    requires Sound(s) && Enabled(s, l) && (l.CreateFile? || l.DeleteFile?)
    ensures Sound(Next(s, l))
  {
    var s' := Next(s, l);
    FileStepEffect(s, l);
    FilesMayChange(s.files, s'.files, s.images, s.avatars);
    ExclusiveAfter(s.files, s'.files, s.txs);
    forall t | t in s.txs ensures TxSound(s'.files, s.images, s.txs[t]) {
      assert TxSound(s.files, s.images, s.txs[t]);
    }
  }

  predicate TxLabel(l: Label) {
    !l.CreateFile? && !l.DeleteFile?
  }

  /** Until it commits a transaction changes nothing but itself. */
  lemma TxStepEffect(s: State, l: Label)
    requires Enabled(s, l) && TxLabel(l) && !l.Commit?
    ensures Next(s, l).(txs := s.txs) == s
    ensures l.Rollback? ==> Next(s, l).txs == s.txs - {l.tx}
    ensures !l.Rollback? ==> l.tx in Next(s, l).txs && Next(s, l).txs == s.txs[l.tx := Next(s, l).txs[l.tx]]
    ensures !l.Rollback? && !l.Begin? ==> l.tx in s.txs && Next(s, l).txs[l.tx].file == s.txs[l.tx].file
  {}

  /** A lock is only taken while nobody else has it. */
  ghost predicate NoConflict(files: map<FileId, File>, tx: Tx, other: Tx) {
    && (HoldsFile(tx) && HoldsFile(other) ==> tx.file != other.file)
    && (HoldsProduct(tx) && HoldsProduct(other) && tx.file in files && other.file in files ==>
          files[tx.file].owner != files[other.file].owner)
    && (tx.pc.LinkInserted? && other.pc.LinkInserted? ==> tx.pc.id != other.pc.id)
  }

  lemma StepKeepsExclusive(s: State, l: Label)
    requires Sound(s) && Enabled(s, l) && TxLabel(l) && !l.Commit? && !l.Rollback?
    ensures TxsExclusive(s.files, Next(s, l).txs)
  {
    TxStepEffect(s, l);
    var tx := Next(s, l).txs[l.tx];
    forall u | u in s.txs && u != l.tx ensures NoConflict(s.files, tx, s.txs[u]) {
      StepNoConflict(s, l, u);
    }
    ExclusiveWith(s.files, s.txs, l.tx, tx);
  }

  lemma ExclusiveWith(files: map<FileId, File>, txs: map<TxId, Tx>, t: TxId, tx: Tx)
    requires TxsExclusive(files, txs)
    requires forall u :: u in txs && u != t ==> NoConflict(files, tx, txs[u])
    ensures TxsExclusive(files, txs[t := tx])
  {}

  lemma StepNoConflict(s: State, l: Label, u: TxId)
    requires Sound(s) && Enabled(s, l) && TxLabel(l) && !l.Commit? && !l.Rollback?
    requires u in s.txs && u != l.tx && l.tx in Next(s, l).txs
    ensures NoConflict(s.files, Next(s, l).txs[l.tx], s.txs[u])
  {
    if l.tx in s.txs {
      assert NoConflict(s.files, s.txs[l.tx], s.txs[u]);
    }
  }

  lemma StepKeepsTxSound(s: State, l: Label)
    requires Sound(s) && Enabled(s, l) && TxLabel(l) && !l.Commit? && !l.Rollback?
    requires l.tx in Next(s, l).txs
    ensures TxSound(s.files, s.images, Next(s, l).txs[l.tx])
  {
    if l.tx in s.txs {
      assert TxSound(s.files, s.images, s.txs[l.tx]);
    }
  }

  lemma TxStepSound(s: State, l: Label)
    requires Sound(s) && Enabled(s, l) && TxLabel(l) && !l.Commit?
    ensures Sound(Next(s, l))
  {
    TxStepEffect(s, l);
    if !l.Rollback? {
      StepKeepsExclusive(s, l);
      StepKeepsTxSound(s, l);
    }
  }

  lemma LinksAfterReady(files: map<FileId, File>, images: map<ImageId, Image>, f: FileId)
    requires LinksSound(files, images) && f in files
    requires files[f].ownerType == Product ==> Linked(images, files[f].owner, f)
    ensures LinksSound(files[f := files[f].(status := Ready)], images)
  {}

  lemma AvatarsAfterCommit(files: map<FileId, File>, avatars: map<OwnerId, Option<FileId>>, f: FileId)
    requires AvatarsSound(files, avatars) && f in files
    ensures AvatarsSound(files[f := files[f].(status := Ready)], avatars)
    ensures files[f].ownerType == User ==>
      AvatarsSound(files[f := files[f].(status := Ready)], avatars[files[f].owner := Some(f)])
  {}

  lemma CommitEffect(s: State, t: TxId)
    requires Enabled(s, Commit(t))
    ensures var s', tx := Next(s, Commit(t)), s.txs[t];
      && s'.txs == s.txs - {t} && s'.files == s.files[tx.file := s.files[tx.file].(status := Ready)]
      && s'.images == (if tx.pc.LinkInserted? then s.images[tx.pc.id := tx.pc.image] else s.images)
      && s'.avatars == (if tx.pc.AvatarWritten? then s.avatars[s.files[tx.file].owner := Some(tx.file)] else s.avatars)
  {}

  lemma CommitKeepsRows(s: State, t: TxId)
    requires Sound(s) && Enabled(s, Commit(t))
    ensures var s' := Next(s, Commit(t));
      GalleriesSound(s'.images) && LinksSound(s'.files, s'.images) && AvatarsSound(s'.files, s'.avatars)
  {
    var tx := s.txs[t];
    CommitEffect(s, t);
    assert TxSound(s.files, s.images, tx);
    AvatarsAfterCommit(s.files, s.avatars, tx.file);
    if tx.pc.LinkInserted? {
      GalleriesGrow(s.images, tx.pc.id, s.files[tx.file].owner, tx.file);
      LinksGrow(s.files, s.images, tx.pc.id, tx.file);
    } else {
      LinksAfterReady(s.files, s.images, tx.file);
    }
  }

  lemma TxSoundAfterReady(files: map<FileId, File>, images: map<ImageId, Image>, f: FileId, tx: Tx)
    requires TxSound(files, images, tx) && f in files
    ensures TxSound(files[f := files[f].(status := Ready)], images, tx)
  {}

  lemma CommitKeepsTx(s: State, t: TxId, u: TxId)
    requires Sound(s) && Enabled(s, Commit(t)) && u in s.txs && u != t
    ensures TxSound(Next(s, Commit(t)).files, Next(s, Commit(t)).images, s.txs[u])
  {
    var tx, other := s.txs[t], s.txs[u];
    CommitEffect(s, t);
    assert TxSound(s.files, s.images, tx) && TxSound(s.files, s.images, other);
    assert NoConflict(s.files, tx, other);
    if HoldsFile(other) && tx.pc.LinkInserted? {
      OthersUnmoved(s.files, s.images, tx.pc.id, tx.pc.image, other);
    }
    TxSoundAfterReady(s.files, Next(s, Commit(t)).images, tx.file, other);
  }

  lemma CommitSound(s: State, t: TxId)
    requires Sound(s) && Enabled(s, Commit(t))
    ensures Sound(Next(s, Commit(t)))
  {
    var s' := Next(s, Commit(t));
    CommitEffect(s, t);
    CommitKeepsRows(s, t);
    ExclusiveAfter(s.files, s'.files, s.txs);
    forall u | u in s'.txs ensures TxSound(s'.files, s'.images, s'.txs[u]) {
      CommitKeepsTx(s, t, u);
    }
  }

  lemma {:induction false} RunsAreSound(products: set<OwnerId>, users: set<OwnerId>, ls: seq<Label>)
    requires Exec(Initially(products, users), ls).Some?
    ensures Sound(Exec(Initially(products, users), ls).value)
  {
    if ls != [] {
      var front, last := ls[..|ls| - 1], ls[|ls| - 1];
      RunsAreSound(products, users, front);
      var s := Exec(Initially(products, users), front).value;
      if last.Commit? {
        CommitSound(s, last.tx);
      } else if TxLabel(last) {
        TxStepSound(s, last);
      } else {
        FileStepSound(s, last);
      }
    }
  }

  // ---- the theorem ----------------------------------------------------------------------------

  /**
     However uploads are completed and repeated: the images of a product are numbered 0 to n-1 without
     gaps or repeats and only number 0 is primary; every finished product file has exactly one image, in
     its own product's gallery; every avatar is a finished file of that user.
   */
  lemma GalleryTheorem(products: set<OwnerId>, users: set<OwnerId>, ls: seq<Label>)
    requires Exec(Initially(products, users), ls).Some?
    ensures var s := Exec(Initially(products, users), ls).value;
      && (forall i :: i in s.images ==>
            && s.images[i].sortOrder < |ImagesOf(s.images, s.images[i].product)|
            && (s.images[i].isPrimary <==> s.images[i].sortOrder == 0))
      && (forall p, n: nat :: n < |ImagesOf(s.images, p)| ==> Placed(s.images, p, n))
      && (forall i, j :: (i in s.images && j in s.images && s.images[i].product == s.images[j].product
                          && s.images[i].sortOrder == s.images[j].sortOrder) ==> i == j)
      && (forall f :: f in s.files && s.files[f].status == Ready && s.files[f].ownerType == Product ==>
            Linked(s.images, s.files[f].owner, f))
      && (forall i, j :: i in s.images && j in s.images && s.images[i].file == s.images[j].file ==> i == j)
      && (forall u :: u in s.avatars && s.avatars[u].Some? ==>
            s.avatars[u].value in s.files && s.files[s.avatars[u].value] == File(User, u, Ready))
  {
    RunsAreSound(products, users, ls);
  }

  /** The insert never meets the unique key on product and file: nobody else links the same file. */
  lemma LinksNeverCollide(products: set<OwnerId>, users: set<OwnerId>, ls: seq<Label>, t: TxId)
    requires Exec(Initially(products, users), ls).Some?
    requires t in Exec(Initially(products, users), ls).value.txs
    requires Exec(Initially(products, users), ls).value.txs[t].pc.LinkInserted?
    ensures var s := Exec(Initially(products, users), ls).value;
      var image := s.txs[t].pc.image;
      && !Linked(s.images, image.product, image.file)
      && forall u :: u in s.txs && u != t && s.txs[u].pc.LinkInserted? ==>
           s.txs[u].pc.image.file != image.file && s.txs[u].pc.image.product != image.product
  {
    var s := Exec(Initially(products, users), ls).value;
    RunsAreSound(products, users, ls);
    assert TxSound(s.files, s.images, s.txs[t]);
    forall u | u in s.txs && u != t && s.txs[u].pc.LinkInserted?
      ensures s.txs[u].pc.image.file != s.txs[t].pc.image.file
      ensures s.txs[u].pc.image.product != s.txs[t].pc.image.product
    {
      assert TxSound(s.files, s.images, s.txs[u]);
    }
  }
}
