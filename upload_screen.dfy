/**
 * The photo list of the upload screen (screens/UploadScreen.tsx). Picking a
 * photo replaces any photo of the same type and appends the new one;
 * removing drops photos by id; the user may continue with two photos or
 * more. The list never holds two photos of one type, so it never holds more
 * than three.
 */
module UploadScreen {
  import opened Wrappers
  import UploadAdmission

  datatype PhotoType = Front | Side | Body

  datatype PhotoTypeInfo = PhotoTypeInfo(kind: PhotoType, labelText: string, description: string)

  /** The screen's `photoTypes` table. */
  const PhotoTypes: seq<PhotoTypeInfo> := [
    PhotoTypeInfo(Front, "Front Face", "Clear front view of your face"),
    PhotoTypeInfo(Side, "Side Profile", "Side view of your face"),
    PhotoTypeInfo(Body, "Full Body", "Full body shot from head to toe")
  ]

  datatype Photo = Photo(id: string, kind: PhotoType, uri: string, labelText: string, description: string)

  /** `photoTypes.find(p => p.type === type)` */
  function FindTypeInfo(infos: seq<PhotoTypeInfo>, t: PhotoType): (r: Option<PhotoTypeInfo>)
    ensures r.Some? ==> r.value in infos && r.value.kind == t
    ensures r.None? ==> forall i :: 0 <= i < |infos| ==> infos[i].kind != t
  {
    if infos == [] then None
    else if infos[0].kind == t then Some(infos[0])
    else FindTypeInfo(infos[1..], t)
  }

  /** `photoTypes.find(...)?.label || ''` */
  function LabelFor(t: PhotoType): string
  {
    match FindTypeInfo(PhotoTypes, t)
    case Some(info) => info.labelText
    case None => ""
  }

  /** `photoTypes.find(...)?.description || ''` */
  function DescriptionFor(t: PhotoType): string
  {
    match FindTypeInfo(PhotoTypes, t)
    case Some(info) => info.description
    case None => ""
  }

  /** The photo pickImage builds from the picked image. */
  function NewPhoto(id: string, t: PhotoType, uri: string): Photo
  {
    Photo(id, t, uri, LabelFor(t), DescriptionFor(t))
  }

  /** Every type has its entry in the table, so a new photo carries that entry's texts. */
  lemma NewPhotoTakesTableTexts(id: string, t: PhotoType, uri: string)
    ensures exists i :: (0 <= i < |PhotoTypes| && PhotoTypes[i].kind == t
                         && NewPhoto(id, t, uri).labelText == PhotoTypes[i].labelText
                         && NewPhoto(id, t, uri).description == PhotoTypes[i].description)
    ensures NewPhoto(id, t, uri).labelText != "" && NewPhoto(id, t, uri).description != ""
  {
    var i := match t case Front => 0 case Side => 1 case Body => 2;
    assert PhotoTypes[i].kind == t;
    assert FindTypeInfo(PhotoTypes, t) == Some(PhotoTypes[i]);
  }

  // ---------------------------------------------------------------------
  // The list operations

  /** `prev.filter(p => p.type !== type)` */
  function WithoutType(photos: seq<Photo>, t: PhotoType): (r: seq<Photo>)
    ensures forall p :: p in r <==> p in photos && p.kind != t
    ensures |r| <= |photos|
  {
    if photos == [] then []
    else (if photos[0].kind != t then [photos[0]] else []) + WithoutType(photos[1..], t)
  }

  /** `prev.filter(p => p.id !== id)` */
  function WithoutId(photos: seq<Photo>, id: string): (r: seq<Photo>)
    ensures forall p :: p in r <==> p in photos && p.id != id
    ensures |r| <= |photos|
  {
    if photos == [] then []
    else (if photos[0].id != id then [photos[0]] else []) + WithoutId(photos[1..], id)
  }

  /** Position of the first photo of type t, or |photos| when there is none. */
  function FirstOfType(photos: seq<Photo>, t: PhotoType): (i: nat)
    ensures i <= |photos|
    ensures i < |photos| ==> photos[i].kind == t
    ensures forall k :: 0 <= k < i ==> photos[k].kind != t
  {
    if photos == [] then 0
    else if photos[0].kind == t then 0
    else 1 + FirstOfType(photos[1..], t)
  }

  /** `photos.find(p => p.type === type)` */
  function FindPhoto(photos: seq<Photo>, t: PhotoType): (r: Option<Photo>)
    ensures r.None? <==> forall i :: 0 <= i < |photos| ==> photos[i].kind != t
    ensures r.Some? ==> r.value.kind == t && r.value == photos[FirstOfType(photos, t)]
  {
    var i := FirstOfType(photos, t);
    if i < |photos| then Some(photos[i]) else None
  }

  /** No two photos of the list share a type. */
  predicate AtMostOnePerType(photos: seq<Photo>)
  {
    forall i, j :: 0 <= i < j < |photos| ==> photos[i].kind != photos[j].kind
  }

  /** The types present in the list. */
  function Kinds(photos: seq<Photo>): (ks: set<PhotoType>)
    ensures forall k :: k in ks ==> exists i :: 0 <= i < |photos| && photos[i].kind == k
  {
    if photos == [] then {}
    else
      var rest := Kinds(photos[1..]);
      assert forall k :: k in rest ==> exists i :: 0 <= i < |photos| && photos[i].kind == k by {
        forall k | k in rest ensures exists i :: 0 <= i < |photos| && photos[i].kind == k {
          var i :| 0 <= i < |photos[1..]| && photos[1..][i].kind == k;
          assert photos[i + 1].kind == k;
        }
      }
      {photos[0].kind} + rest
  }

  /** Dropping the first photo keeps one photo per type. */
  lemma TailKeepsOnePerType(photos: seq<Photo>)
    requires photos != [] && AtMostOnePerType(photos)
    ensures AtMostOnePerType(photos[1..])
    ensures forall i :: 0 <= i < |photos[1..]| ==> photos[1..][i].kind != photos[0].kind
  {
    forall i, j | 0 <= i < j < |photos[1..]| ensures photos[1..][i].kind != photos[1..][j].kind {
      assert photos[1..][i] == photos[i + 1] && photos[1..][j] == photos[j + 1];
    }
    forall i | 0 <= i < |photos[1..]| ensures photos[1..][i].kind != photos[0].kind {
      assert photos[1..][i] == photos[i + 1];
    }
  }

  // ---------------------------------------------------------------------
  // Properties of the list operations

  /** Filtering out a type keeps the other photos in their order. */
  lemma {:induction false} WithoutTypeKeepsOrder(a: seq<Photo>, b: seq<Photo>, t: PhotoType)
    ensures WithoutType(a + b, t) == WithoutType(a, t) + WithoutType(b, t)
  {
    if a != [] {
      assert (a + b)[1..] == a[1..] + b;
      WithoutTypeKeepsOrder(a[1..], b, t);
    } else {
      assert a + b == b;
    }
  }

  /** With no photo of the type there is nothing to replace. */
  lemma {:induction false} WithoutAbsentType(photos: seq<Photo>, t: PhotoType)
    requires forall i :: 0 <= i < |photos| ==> photos[i].kind != t
    ensures WithoutType(photos, t) == photos
  {
    if photos != [] {
      WithoutAbsentType(photos[1..], t);
      assert photos == [photos[0]] + photos[1..];
    }
  }

  /** With one photo per type, picking type t removes exactly t's slot. */
  lemma {:induction false} WithoutTypeRemovesOneSlot(photos: seq<Photo>, t: PhotoType, k: nat)
    requires AtMostOnePerType(photos)
    requires k < |photos| && photos[k].kind == t
    ensures WithoutType(photos, t) == photos[..k] + photos[k + 1..]
  {
    TailKeepsOnePerType(photos);
    var tail := photos[1..];
    if k == 0 {
      WithoutAbsentType(tail, t);
      assert WithoutType(photos, t) == tail;
    } else {
      assert photos[0].kind != t by {
        assert tail[k - 1] == photos[k];
      }
      assert tail[k - 1].kind == t;
      WithoutTypeRemovesOneSlot(tail, t, k - 1);
      calc {
        WithoutType(photos, t);
        [photos[0]] + WithoutType(tail, t);
        [photos[0]] + (tail[..k - 1] + tail[k..]);
        { assert [photos[0]] + tail[..k - 1] == photos[..k]; assert tail[k..] == photos[k + 1..]; }
        photos[..k] + photos[k + 1..];
      }
    }
  }

  /** Filtering out an id keeps the other photos in their order. */
  lemma {:induction false} WithoutIdKeepsOrder(a: seq<Photo>, b: seq<Photo>, id: string)
    ensures WithoutId(a + b, id) == WithoutId(a, id) + WithoutId(b, id)
  {
    if a != [] {
      assert (a + b)[1..] == a[1..] + b;
      WithoutIdKeepsOrder(a[1..], b, id);
    } else {
      assert a + b == b;
    }
  }

  lemma {:induction false} WithoutTypeKeepsOnePerType(photos: seq<Photo>, t: PhotoType)
    requires AtMostOnePerType(photos)
    ensures AtMostOnePerType(WithoutType(photos, t))
  {
    if photos != [] {
      WithoutTypeKeepsOnePerType(photos[1..], t);
      var rest := WithoutType(photos[1..], t);
      forall q | q in rest ensures q.kind != photos[0].kind {
        var k :| 0 <= k < |photos[1..]| && photos[1..][k] == q;
        assert photos[k + 1] == q;
      }
    }
  }

  lemma {:induction false} WithoutIdKeepsOnePerType(photos: seq<Photo>, id: string)
    requires AtMostOnePerType(photos)
    ensures AtMostOnePerType(WithoutId(photos, id))
  {
    if photos != [] {
      WithoutIdKeepsOnePerType(photos[1..], id);
      var rest := WithoutId(photos[1..], id);
      forall q | q in rest ensures q.kind != photos[0].kind {
        var k :| 0 <= k < |photos[1..]| && photos[1..][k] == q;
        assert photos[k + 1] == q;
      }
    }
  }

  /** Replacing the photo of a type keeps one photo per type. */
  lemma ReplaceKeepsOnePerType(photos: seq<Photo>, p: Photo)
    requires AtMostOnePerType(photos)
    ensures AtMostOnePerType(WithoutType(photos, p.kind) + [p])
  {
    WithoutTypeKeepsOnePerType(photos, p.kind);
    var rest := WithoutType(photos, p.kind);
    forall i | 0 <= i < |rest| ensures rest[i].kind != p.kind {
      assert rest[i] in rest;
    }
  }

  /** With one photo per type the list has one type per photo: at most three. */
  lemma {:induction false} OnePerTypeBoundsLength(photos: seq<Photo>)
    requires AtMostOnePerType(photos)
    ensures |Kinds(photos)| == |photos|
    ensures |photos| <= 3
  {
    if photos != [] {
      TailKeepsOnePerType(photos);
      OnePerTypeBoundsLength(photos[1..]);
      assert photos[0].kind !in Kinds(photos[1..]);
    }
    assert Kinds(photos) <= {Front, Side, Body} by {
      forall k | k in Kinds(photos) ensures k in {Front, Side, Body} {
        match k
        case Front =>
        case Side =>
        case Body =>
      }
    }
    SubsetCardinality(Kinds(photos), {Front, Side, Body});
  }

  lemma {:induction false} SubsetCardinality(a: set<PhotoType>, b: set<PhotoType>)
    requires a <= b
    ensures |a| <= |b|
  {
    if a != {} {
      var x :| x in a;
      SubsetCardinality(a - {x}, b - {x});
    }
  }

  /** With one photo per type, the photo found for a type is the only one of that type. */
  lemma FoundPhotoIsUnique(photos: seq<Photo>, t: PhotoType, i: nat)
    requires AtMostOnePerType(photos)
    requires i < |photos| && photos[i].kind == t
    ensures FindPhoto(photos, t) == Some(photos[i])
  {
  }

  /**
   * Continuing needs two photos, the server's minimum; and as the list holds
   * at most three, whatever may continue passes the server's count check.
   */
  lemma ContinuingMeetsServerCount(photos: seq<Photo>)
    requires AtMostOnePerType(photos)
    ensures |photos| >= 2 <==> UploadAdmission.MinPhotos <= |photos| <= UploadAdmission.MaxPhotos
  {
    OnePerTypeBoundsLength(photos);
  }

  // ---------------------------------------------------------------------
  // The screen's state

  class UploadScreenState {
    /** `const [photos, setPhotos] = useState<PhotoData[]>([])` */
    var photos: seq<Photo>

    ghost predicate Valid()
      reads this
    {
      AtMostOnePerType(photos)
    }

    constructor ()
      ensures Valid() && photos == []
    {
      photos := [];
    }

    /** The updater pickImage passes to setPhotos once an image was picked. */
    method PickImage(t: PhotoType, id: string, uri: string)
      requires Valid()
      modifies this
      ensures Valid()
      ensures photos == WithoutType(old(photos), t) + [NewPhoto(id, t, uri)]
      ensures |photos| <= 3
    {
      var newPhoto := NewPhoto(id, t, uri);
      ReplaceKeepsOnePerType(photos, newPhoto);
      var filtered := WithoutType(photos, t);
      photos := filtered + [newPhoto];
      OnePerTypeBoundsLength(photos);
    }

    /** removePhoto's updater. */
    method RemovePhoto(id: string)
      requires Valid()
      modifies this
      ensures Valid()
      ensures photos == WithoutId(old(photos), id)
    {
      WithoutIdKeepsOnePerType(photos, id);
      photos := WithoutId(photos, id);
    }

    function GetPhotoForType(t: PhotoType): (r: Option<Photo>)
      reads this
      ensures r.None? <==> forall i :: 0 <= i < |photos| ==> photos[i].kind != t
      ensures r.Some? ==> r.value in photos && r.value.kind == t
    {
      FindPhoto(photos, t)
    }

    function CanContinue(): (ok: bool)
      reads this
      ensures ok <==> |photos| >= UploadAdmission.MinPhotos
    {
      |photos| >= 2
    }
  }
}
