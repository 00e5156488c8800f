/** The code of completeUpload: one call, from the file lock to the binding, with nobody interfering. */
module FilesService {
  import opened Wrappers
  import Gallery
  import opened FreshIds

  type FileId = Gallery.FileId
  type OwnerId = Gallery.OwnerId
  type ImageId = Gallery.ImageId

  datatype Caller = Caller(sub: OwnerId, isStaff: bool)

  datatype UploadError = FileNotFound | Forbidden | StatusConflict | ObjectMissing | OwnerNotFound

  /** Staff may complete any file, a user only his own. */
  predicate MayComplete(caller: Caller, file: Gallery.File) {
    caller.isStaff || (file.ownerType == Gallery.User && file.owner == caller.sub)
  }

  predicate OwnerExists(products: set<OwnerId>, avatars: map<OwnerId, Option<FileId>>, file: Gallery.File) {
    match file.ownerType
    case User => file.owner in avatars
    case Product => file.owner in products
    case _ => true
  }

  /** What, if anything, a call fails with. A file that is ready is bound again without a look at storage. */
  function Refusal(files: map<FileId, Gallery.File>, products: set<OwnerId>,
                   avatars: map<OwnerId, Option<FileId>>, caller: Caller, f: FileId, objectExists: bool)
    : Option<UploadError>
  {
    if f !in files then Some(FileNotFound)
    else if !MayComplete(caller, files[f]) then Some(Forbidden)
    else if files[f].status == Gallery.Failed then Some(StatusConflict)
    else if files[f].status == Gallery.Pending && !objectExists then Some(ObjectMissing)
    else if !OwnerExists(products, avatars, files[f]) then Some(OwnerNotFound)
    else None
  }

  /** The tests in full, and which error belongs to the first that fails. */
  ghost predicate Answers(files: map<FileId, Gallery.File>, products: set<OwnerId>,
                          avatars: map<OwnerId, Option<FileId>>, caller: Caller, f: FileId, objectExists: bool,
                          error: Option<UploadError>)
  {
    if f !in files then error == Some(FileNotFound) else
    var file := files[f];
    var own := file.ownerType == Gallery.User && file.owner == caller.sub;
    var stored := objectExists || file.status == Gallery.Ready;
    var bindable := (file.ownerType == Gallery.User ==> file.owner in avatars)
                    && (file.ownerType == Gallery.Product ==> file.owner in products);
    && (error == None <==> (caller.isStaff || own) && file.status != Gallery.Failed && stored && bindable)
    && (error == Some(Forbidden) <==> !caller.isStaff && !own)
    && (error == Some(StatusConflict) <==> (caller.isStaff || own) && file.status == Gallery.Failed)
    && (error == Some(ObjectMissing) <==> (caller.isStaff || own) && file.status == Gallery.Pending && !objectExists)
    && (error == Some(OwnerNotFound) <==>
          (caller.isStaff || own) && file.status != Gallery.Failed && stored && !bindable)
    && error != Some(FileNotFound)
  }

  /** Who may complete what, and what else it takes: a call is refused for the first test that fails, and only then. */
  lemma RefusalInFull(files: map<FileId, Gallery.File>, products: set<OwnerId>,
                      avatars: map<OwnerId, Option<FileId>>, caller: Caller, f: FileId, objectExists: bool)
    ensures Answers(files, products, avatars, caller, f, objectExists,
                    Refusal(files, products, avatars, caller, f, objectExists))
  {}

  class FilesService {
    var files: map<FileId, Gallery.File>
    var products: set<OwnerId>
    var avatars: map<OwnerId, Option<FileId>>
    var images: map<ImageId, Gallery.Image>

    constructor (products: set<OwnerId>, users: set<OwnerId>)
      ensures files == map[] && this.products == products && images == map[]
      ensures avatars == map u | u in users :: None
      ensures Valid()
    {
      files, this.products, images := map[], products, map[];
      avatars := map u | u in users :: None;
      new;
      EmptyGallery();
    }

    ghost predicate Valid()
      reads this
    {
      && Gallery.GalleriesSound(images) && Gallery.LinksSound(files, images)
      && Gallery.AvatarsSound(files, avatars)
    }

    method BindUserAvatar(owner: OwnerId, f: FileId) returns (ok: bool)
      modifies this`avatars
      ensures ok <==> owner in old(avatars)
      ensures avatars == if ok then old(avatars)[owner := Some(f)] else old(avatars)
    {
      if owner in avatars {
        avatars := avatars[owner := Some(f)];
        return true;
      }
      return false;
    }

    /** Links the file once: a file that is linked already gets no second image. */
    method BindProductImage(p: OwnerId, f: FileId) returns (ok: bool)
      modifies this`images
      ensures ok <==> p in products
      ensures !ok || Gallery.Linked(old(images), p, f) ==> images == old(images)
      ensures ok && !Gallery.Linked(old(images), p, f) ==>
        exists i: ImageId ::
          i !in old(images) && images == old(images)[i := Gallery.NewImage(old(images), p, f)]
    {
      if p !in products {
        return false;
      }
      var alreadyLinked := exists i :: i in images && images[i].product == p && images[i].file == f;
      if alreadyLinked {
        return true;
      }
      var existingCount := |Gallery.ImagesOf(images, p)|;
      FreshNat(images.Keys);
      var i :| i !in images;
      images := images[i := Gallery.Image(p, f, existingCount, existingCount == 0)];
      return true;
    }

    method BindFileToDomain(f: FileId) returns (ok: bool)
      requires f in files
      modifies this`avatars, this`images
      ensures ok <==> OwnerExists(products, old(avatars), files[f])
      ensures !ok ==> avatars == old(avatars) && images == old(images)
      ensures files[f].ownerType == Gallery.User ==>
        images == old(images) && (ok ==> avatars == old(avatars)[files[f].owner := Some(f)])
      ensures files[f].ownerType == Gallery.Product ==>
        && avatars == old(avatars)
        && (Gallery.Linked(old(images), files[f].owner, f) ==> images == old(images))
        && (ok && !Gallery.Linked(old(images), files[f].owner, f) ==>
              exists i: ImageId :: i !in old(images)
                && images == old(images)[i := Gallery.NewImage(old(images), files[f].owner, f)])
      ensures files[f].ownerType != Gallery.User && files[f].ownerType != Gallery.Product ==>
        avatars == old(avatars) && images == old(images)
    {
      match files[f].ownerType {
        case User => ok := BindUserAvatar(files[f].owner, f);
        case Product => ok := BindProductImage(files[f].owner, f);
        case _ => ok := true;
      }
    }

    /**
     completeUpload: a refused call changes nothing; one that succeeds leaves the file ready and bound,
     the galleries in order, and, when the file was ready before, no image more.
     */
    method CompleteUpload(caller: Caller, f: FileId, objectExists: bool) returns (error: Option<UploadError>)
      requires Valid()
      modifies this
      ensures Valid() && products == old(products)
      ensures error == Refusal(old(files), old(products), old(avatars), caller, f, objectExists)
      ensures Answers(old(files), old(products), old(avatars), caller, f, objectExists, error)
      ensures error.Some? ==> files == old(files) && avatars == old(avatars) && images == old(images)
      ensures error.None? ==> files == old(files)[f := old(files)[f].(status := Gallery.Ready)]
      ensures error.None? && files[f].ownerType == Gallery.Product ==>
        avatars == old(avatars) && Gallery.Linked(images, files[f].owner, f)
      ensures error.None? && files[f].ownerType == Gallery.User ==>
        images == old(images) && avatars == old(avatars)[files[f].owner := Some(f)]
      ensures error.None? && old(files)[f].status == Gallery.Ready ==> images == old(images)
    {
      RefusalInFull(files, products, avatars, caller, f, objectExists);
      if f !in files {
        return Some(FileNotFound);
      }
      if !MayComplete(caller, files[f]) {
        return Some(Forbidden);
      }
      if files[f].status == Gallery.Failed {
        return Some(StatusConflict);
      }
      if files[f].status == Gallery.Pending && !objectExists {
        return Some(ObjectMissing);
      }
      ghost var linked := Gallery.Linked(images, files[f].owner, f);
      var ok := BindFileToDomain(f);
      if !ok {
        return Some(OwnerNotFound);
      }
      BoundStaysSound(files, old(images), images, old(avatars), f);
      files := files[f := files[f].(status := Gallery.Ready)];
      return None;
    }
  }

  lemma EmptyGallery()
    ensures Gallery.GalleriesSound(map[])
  {
    assert forall p :: Gallery.ImagesOf(map[], p) == {};
  }

  /** Once the file is bound it may be made ready. */
  lemma BoundStaysSound(files: map<FileId, Gallery.File>, images: map<ImageId, Gallery.Image>,
                        images': map<ImageId, Gallery.Image>, avatars: map<OwnerId, Option<FileId>>, f: FileId)
    requires f in files && Gallery.GalleriesSound(images) && Gallery.LinksSound(files, images)
    requires Gallery.AvatarsSound(files, avatars)
    requires var file := files[f];
      if file.ownerType != Gallery.Product || Gallery.Linked(images, file.owner, f) then images' == images
      else exists i: ImageId :: i !in images && images' == images[i := Gallery.NewImage(images, file.owner, f)]
    ensures var files' := files[f := files[f].(status := Gallery.Ready)];
      && Gallery.GalleriesSound(images') && Gallery.LinksSound(files', images')
      && (files[f].ownerType == Gallery.Product ==> Gallery.Linked(images', files[f].owner, f))
      && Gallery.AvatarsSound(files', avatars)
      && (files[f].ownerType == Gallery.User ==>
            Gallery.AvatarsSound(files', avatars[files[f].owner := Some(f)]))
  {
    var file := files[f];
    Gallery.AvatarsAfterCommit(files, avatars, f);
    if file.ownerType != Gallery.Product || Gallery.Linked(images, file.owner, f) {
      Gallery.LinksAfterReady(files, images, f);
    } else {
      var i :| i !in images && images' == images[i := Gallery.NewImage(images, file.owner, f)];
      Gallery.GalleriesGrow(images, i, file.owner, f);
      Gallery.LinksGrow(files, images, i, f);
      assert images'[i].product == file.owner && images'[i].file == f;
    }
  }
}
