// The content-editing panel of src/components/SetupPanel.tsx. Every handler builds
// a new manager record with an object spread and hands it to the parent's
// `setManagerData`; the Panel class holds that record and the panel's `editMode`.

module SetupPanel {

  datatype Option<T> = None | Some(value: T)

  /** The panel's own `ManagerData`: three text fields, one URL and three lists. */
  datatype ManagerData = ManagerData(
    name: string,
    title: string,
    photoUrl: string,
    mission: string,
    goals: seq<string>,
    achievements: seq<string>,
    galleryImages: seq<string>)

  /** `keyof ManagerData`. */
  datatype Key = Name | Title | PhotoUrl | Mission | Goals | Achievements | GalleryImages

  /** `ManagerData[K]`: a string for the text fields, a string array for the lists. */
  datatype Value = Text(text: string) | Items(items: seq<string>)

  /** The value type of field `key`. */
  predicate Fits(key: Key, value: Value)
  {
    match key
    case Goals | Achievements | GalleryImages => value.Items?
    case _ => value.Text?
  }

  /** `managerData[key]`. */
  function Get(d: ManagerData, key: Key): (v: Value)
    ensures Fits(key, v)
  {
    match key
    case Name => Text(d.name)
    case Title => Text(d.title)
    case PhotoUrl => Text(d.photoUrl)
    case Mission => Text(d.mission)
    case Goals => Items(d.goals)
    case Achievements => Items(d.achievements)
    case GalleryImages => Items(d.galleryImages)
  }

  /** `{ ...managerData, [key]: value }`: field `key` becomes `value`, every other field is copied. */
  function Updated(d: ManagerData, key: Key, value: Value): (r: ManagerData)
    requires Fits(key, value)
    ensures Get(r, key) == value
    ensures forall k :: k != key ==> Get(r, k) == Get(d, k)
  {
    match key
    case Name => d.(name := value.text)
    case Title => d.(title := value.text)
    case PhotoUrl => d.(photoUrl := value.text)
    case Mission => d.(mission := value.text)
    case Goals => d.(goals := value.items)
    case Achievements => d.(achievements := value.items)
    case GalleryImages => d.(galleryImages := value.items)
  }

  /** Two records that agree on every field are the same record. */
  lemma Extensionality(d: ManagerData, e: ManagerData)
    requires forall k :: Get(d, k) == Get(e, k)
    ensures d == e
  {
    assert Get(d, Name) == Get(e, Name) && Get(d, Title) == Get(e, Title);
    assert Get(d, PhotoUrl) == Get(e, PhotoUrl) && Get(d, Mission) == Get(e, Mission);
    assert Get(d, Goals) == Get(e, Goals) && Get(d, Achievements) == Get(e, Achievements);
    assert Get(d, GalleryImages) == Get(e, GalleryImages);
  }

  /** Writing back the value a field already holds gives the same record. */
  lemma UpdatedWithOwnValue(d: ManagerData, key: Key)
    ensures Updated(d, key, Get(d, key)) == d
  {
  }

  /** Only the last write to a field is visible. */
  lemma UpdatedTwice(d: ManagerData, key: Key, v: Value, w: Value)
    requires Fits(key, v) && Fits(key, w)
    ensures Updated(Updated(d, key, v), key, w) == Updated(d, key, w)
  {
  }

  /** The three lists the panel edits item by item. */
  datatype ListField = GoalList | AchievementList | ImageList

  function KeyOf(f: ListField): Key
  {
    match f
    case GoalList => Goals
    case AchievementList => Achievements
    case ImageList => GalleryImages
  }

  function ItemsOf(d: ManagerData, f: ListField): seq<string>
  {
    match f
    case GoalList => d.goals
    case AchievementList => d.achievements
    case ImageList => d.galleryImages
  }

  /** The item an "add" button appends: 'New Goal', 'New Achievement' or an empty image URL. */
  function DefaultItem(f: ListField): string
  {
    match f
    case GoalList => "New Goal"
    case AchievementList => "New Achievement"
    case ImageList => ""
  }

  /** `{ ...managerData, [list]: items }`. */
  function WithItems(d: ManagerData, f: ListField, items: seq<string>): (r: ManagerData)
    ensures ItemsOf(r, f) == items
    ensures forall k :: k != KeyOf(f) ==> Get(r, k) == Get(d, k)
  {
    Updated(d, KeyOf(f), Items(items))
  }

  /** `items.filter((_, i) => i !== index)`: keep every element whose position is not `index`. */
  function FilterOut<T>(items: seq<T>, index: int): seq<T>
  {
    if items == [] then []
    else FilterOut(items[..|items| - 1], index) + (if |items| - 1 != index then [items[|items| - 1]] else [])
  }

  /**
   * The filter deletes exactly element `index` and keeps the others in order;
   * an index that is no position deletes nothing.
   */
  lemma {:induction false} FilterOutDeletes<T>(items: seq<T>, index: int)
    ensures 0 <= index < |items| ==> FilterOut(items, index) == items[..index] + items[index + 1..]
    ensures !(0 <= index < |items|) ==> FilterOut(items, index) == items
  {
    if items != [] {
      var init := items[..|items| - 1];
      var last := items[|items| - 1];
      FilterOutDeletes(init, index);
      if index == |items| - 1 {
        assert FilterOut(items, index) == init;
      } else if 0 <= index < |items| - 1 {
        assert init[..index] + init[index + 1..] + [last] == items[..index] + items[index + 1..];
      } else {
        assert init + [last] == items;
      }
    }
  }

  /**
   * The "add" buttons: the list gains the default item at its end, the earlier
   * items are kept and every other field is copied.
   */
  function AddItem(d: ManagerData, f: ListField): (r: ManagerData)
    ensures |ItemsOf(r, f)| == |ItemsOf(d, f)| + 1
    ensures ItemsOf(r, f)[..|ItemsOf(d, f)|] == ItemsOf(d, f)
    ensures ItemsOf(r, f)[|ItemsOf(d, f)|] == DefaultItem(f)
    ensures forall k :: k != KeyOf(f) ==> Get(r, k) == Get(d, k)
  {
    var items := ItemsOf(d, f) + [DefaultItem(f)];
    assert items[..|ItemsOf(d, f)|] == ItemsOf(d, f);
    WithItems(d, f, items)
  }

  /**
   * What the "update" handlers store: item `index` becomes `value`, the list
   * keeps its length and its other items, and every other field is copied.
   */
  function ReviseItem(d: ManagerData, f: ListField, index: nat, value: string): (r: ManagerData)
    requires index < |ItemsOf(d, f)|
    ensures |ItemsOf(r, f)| == |ItemsOf(d, f)|
    ensures ItemsOf(r, f)[index] == value
    ensures forall j :: 0 <= j < |ItemsOf(d, f)| && j != index ==> ItemsOf(r, f)[j] == ItemsOf(d, f)[j]
    ensures forall k :: k != KeyOf(f) ==> Get(r, k) == Get(d, k)
  {
    WithItems(d, f, ItemsOf(d, f)[index := value])
  }

  /**
   * The "remove" buttons: a valid `index` loses exactly that item, the others
   * keep their order; any other index leaves the list as it was. Every other
   * field is copied.
   */
  function RemoveItem(d: ManagerData, f: ListField, index: int): (r: ManagerData)
    ensures 0 <= index < |ItemsOf(d, f)| ==>
              |ItemsOf(r, f)| == |ItemsOf(d, f)| - 1 &&
              ItemsOf(r, f) == ItemsOf(d, f)[..index] + ItemsOf(d, f)[index + 1..]
    ensures !(0 <= index < |ItemsOf(d, f)|) ==> r == d
    ensures forall k :: k != KeyOf(f) ==> Get(r, k) == Get(d, k)
  {
    FilterOutDeletes(ItemsOf(d, f), index);
    var r := WithItems(d, f, FilterOut(ItemsOf(d, f), index));
    assert !(0 <= index < |ItemsOf(d, f)|) ==> r == d by {
      if !(0 <= index < |ItemsOf(d, f)|) {
        Extensionality(r, d);
      }
    }
    r
  }

  /** Removing the item just added gives back the record as it was. */
  lemma AddThenRemove(d: ManagerData, f: ListField)
    ensures RemoveItem(AddItem(d, f), f, |ItemsOf(d, f)|) == d
  {
  }

  /** Storing the same value at the same index twice is the same as storing it once. */
  lemma ReviseIdempotent(d: ManagerData, f: ListField, index: nat, value: string)
    requires index < |ItemsOf(d, f)|
    ensures ReviseItem(ReviseItem(d, f, index, value), f, index, value) == ReviseItem(d, f, index, value)
  {
  }

  /** An item about to be removed may as well not have been edited. */
  lemma ReviseThenRemove(d: ManagerData, f: ListField, index: nat, value: string)
    requires index < |ItemsOf(d, f)|
    ensures RemoveItem(ReviseItem(d, f, index, value), f, index) == RemoveItem(d, f, index)
  {
  }

  /** `const copy = [...items]; copy[index] = value;`: a fresh array, one slot overwritten. */
  method Replace(items: seq<string>, index: nat, value: string) returns (r: seq<string>)
    requires index < |items|
    ensures |r| == |items| && r[index] == value
    ensures forall j :: 0 <= j < |items| && j != index ==> r[j] == items[j]
  {
    var copy := new string[|items|](j requires 0 <= j < |items| => items[j]);
    copy[index] := value;
    r := copy[..];
  }

  /** The panel: the record it edits (held by its parent) and the field open for editing. */
  class Panel {
    var managerData: ManagerData
    var editMode: Option<Key>

    constructor (data: ManagerData)
      ensures managerData == data && editMode == None
    {
      managerData := data;
      editMode := None;
    }

    /** `handleUpdate(key, value)`: one field set, the editor closed. */
    method HandleUpdate(key: Key, value: Value)
      requires Fits(key, value)
      modifies this
      ensures managerData == Updated(old(managerData), key, value)
      ensures editMode == None
    {
      managerData := Updated(managerData, key, value);
      editMode := None;
    }

    method AddGoal()
      modifies this
      ensures managerData == AddItem(old(managerData), GoalList) && editMode == old(editMode)
    {
      managerData := managerData.(goals := managerData.goals + ["New Goal"]);
    }

    method UpdateGoal(index: nat, value: string)
      requires index < |managerData.goals|
      modifies this
      ensures managerData == ReviseItem(old(managerData), GoalList, index, value) && editMode == old(editMode)
    {
      var newGoals := Replace(managerData.goals, index, value);
      managerData := managerData.(goals := newGoals);
    }

    method RemoveGoal(index: int)
      modifies this
      ensures managerData == RemoveItem(old(managerData), GoalList, index) && editMode == old(editMode)
    {
      managerData := managerData.(goals := FilterOut(managerData.goals, index));
    }

    method AddAchievement()
      modifies this
      ensures managerData == AddItem(old(managerData), AchievementList) && editMode == old(editMode)
    {
      managerData := managerData.(achievements := managerData.achievements + ["New Achievement"]);
    }

    method UpdateAchievement(index: nat, value: string)
      requires index < |managerData.achievements|
      modifies this
      ensures managerData == ReviseItem(old(managerData), AchievementList, index, value) && editMode == old(editMode)
    {
      var newAchievements := Replace(managerData.achievements, index, value);
      managerData := managerData.(achievements := newAchievements);
    }

    method RemoveAchievement(index: int)
      modifies this
      ensures managerData == RemoveItem(old(managerData), AchievementList, index) && editMode == old(editMode)
    {
      managerData := managerData.(achievements := FilterOut(managerData.achievements, index));
    }

    method AddGalleryImage()
      modifies this
      ensures managerData == AddItem(old(managerData), ImageList) && editMode == old(editMode)
    {
      managerData := managerData.(galleryImages := managerData.galleryImages + [""]);
    }

    method UpdateGalleryImage(index: nat, value: string)
      requires index < |managerData.galleryImages|
      modifies this
      ensures managerData == ReviseItem(old(managerData), ImageList, index, value) && editMode == old(editMode)
    {
      var newImages := Replace(managerData.galleryImages, index, value);
      managerData := managerData.(galleryImages := newImages);
    }

    method RemoveGalleryImage(index: int)
      modifies this
      ensures managerData == RemoveItem(old(managerData), ImageList, index) && editMode == old(editMode)
    {
      managerData := managerData.(galleryImages := FilterOut(managerData.galleryImages, index));
    }
  }
}
