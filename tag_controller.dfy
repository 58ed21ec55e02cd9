/**
 * The tag registry: the task admin lists, adds, renames and deletes tags;
 * everyone may read the list through `lookup`.
 */
module TagController {
  import opened Common
  import opened Database
  import Query
  import Ordering

  function TagName(t: Tag): string { t.name }

  predicate NameUsed(tags: map<Id, Tag>, name: string, ignore: Option<Id>) {
    exists k :: k in tags && tags[k].name == name && Some(k) != ignore
  }

  /** `required|string|min:2|max:50` and `Rule::unique('tags', 'name')`, optionally
      `->ignore($tag->id)`: the fields rejected. */
  function NameErrors(tags: map<Id, Tag>, name: Option<string>, ignore: Option<Id>): (errs: set<string>)
    ensures errs == {} || errs == {"name"}
    ensures errs == {} <==> RequiredLength(name, 2, 50) && !NameUsed(tags, name.value, ignore)
  {
    if RequiredLength(name, 2, 50) && !NameUsed(tags, name.value, ignore) then {} else {"name"}
  }

  function TagId(t: Tag): Id { t.id }

  /** Every tag, ordered by name. */
  function AllByName(tags: map<Id, Tag>, bound: nat): (list: seq<Tag>)
    requires TagsKeyed(tags, bound)
    ensures Ordering.SortedByName(list, TagName)
    ensures forall t :: t in list <==> t.id in tags && tags[t.id] == t
    ensures forall i, j :: 0 <= i < j < |list| ==> list[i].id != list[j].id
  {
    var rows := Query.Select(tags, (t: Tag) => true, bound, TagId);
    var list := Ordering.SortByName(rows, TagName);
    Ordering.SortKeepsKeysDistinct(rows, TagName, (t: Tag) => t.id as int);
    forall t ensures t in list <==> t in rows {
      assert t in list <==> t in multiset(list);
    }
    list
  }

  /** `index`: the admin's list. */
  function Index(caller: User, tags: map<Id, Tag>, bound: nat): (r: Reply<seq<Tag>>)
    requires TagsKeyed(tags, bound)
    ensures caller.role != TaskAdmin <==> r == Err(Forbidden)
    ensures r.Ok? ==> r.code == 200 && r.data == AllByName(tags, bound)
  {
    if caller.role != TaskAdmin then Err(Forbidden) else Ok(200, AllByName(tags, bound))
  }

  /** `lookup`: the same list for any authenticated caller. */
  function Lookup(tags: map<Id, Tag>, bound: nat): (r: Reply<seq<Tag>>)
    requires TagsKeyed(tags, bound)
    ensures r == Ok(200, AllByName(tags, bound))
  {
    Ok(200, AllByName(tags, bound))
  }

  /** `lookup` never refuses, and agrees with what the admin's `index` lists. */
  lemma LookupMatchesIndex(caller: User, tags: map<Id, Tag>, bound: nat)
    requires TagsKeyed(tags, bound)
    ensures Lookup(tags, bound).Ok?
    ensures caller.role == TaskAdmin ==> Lookup(tags, bound) == Index(caller, tags, bound)
  {
  }

  /** `store`. */
  method Store(s: Store, caller: User, name: Option<string>) returns (r: Reply<Tag>)
    requires s.Valid()
    modifies s`tags, s`nextTag
    ensures s.Valid()
    ensures caller.role != TaskAdmin ==> r == Err(Forbidden) && unchanged(s)
    ensures caller.role == TaskAdmin && NameErrors(old(s.tags), name, None) != {} ==>
      r == Err(Invalid({"name"})) && unchanged(s)
    ensures r.Ok? <==> caller.role == TaskAdmin && NameErrors(old(s.tags), name, None) == {}
    ensures r.Ok? ==>
      && r.code == 201
      && r.data == Tag(old(s.nextTag), name.value)
      && r.data.id !in old(s.tags)
      && s.tags == old(s.tags)[r.data.id := r.data]
  {
    if caller.role != TaskAdmin {
      return Err(Forbidden);
    }
    var errs := NameErrors(s.tags, name, None);
    if errs != {} {
      return Err(Invalid(errs));
    }
    var tag := Tag(s.nextTag, name.value);
    s.tags := s.tags[tag.id := tag];
    s.nextTag := s.nextTag + 1;
    r := Ok(201, tag);
  }

  /** `update`: renames one tag; the uniqueness check skips the tag's own row. */
  method Update(s: Store, caller: User, tagId: Id, name: Option<string>) returns (r: Reply<Tag>)
    requires s.Valid()
    modifies s`tags
    ensures s.Valid()
    ensures tagId !in old(s.tags) ==> r == Err(NotFound) && unchanged(s)
    ensures tagId in old(s.tags) && caller.role != TaskAdmin ==> r == Err(Forbidden) && unchanged(s)
    ensures tagId in old(s.tags) && caller.role == TaskAdmin && NameErrors(old(s.tags), name, Some(tagId)) != {} ==>
      r == Err(Invalid({"name"})) && unchanged(s)
    ensures r.Ok? <==>
      tagId in old(s.tags) && caller.role == TaskAdmin && NameErrors(old(s.tags), name, Some(tagId)) == {}
    ensures r.Ok? ==>
      && r == Ok(200, Tag(tagId, name.value))
      && s.tags == old(s.tags)[tagId := Tag(tagId, name.value)]
  {
    if tagId !in s.tags {
      return Err(NotFound);
    }
    if caller.role != TaskAdmin {
      return Err(Forbidden);
    }
    var errs := NameErrors(s.tags, name, Some(tagId));
    if errs != {} {
      return Err(Invalid(errs));
    }
    var tag := Tag(tagId, name.value);
    s.tags := s.tags[tagId := tag];
    r := Ok(200, tag);
  }

  /** Renaming a tag to the name it already has passes validation. */
  lemma {:induction false} RenameToOwnNameAccepted(tags: map<Id, Tag>, tagId: Id, bound: nat)
    requires TagsKeyed(tags, bound) && UniqueTagNames(tags)
    requires tagId in tags && 2 <= |tags[tagId].name| <= 50
    ensures NameErrors(tags, Some(tags[tagId].name), Some(tagId)) == {}
  {
  }

  /** Renaming a tag to another tag's name, or adding a tag with a used name, is rejected. */
  lemma {:induction false} UsedNameRejected(tags: map<Id, Tag>, tagId: Id, other: Id)
    requires tagId in tags && other in tags && other != tagId
    ensures NameErrors(tags, Some(tags[other].name), Some(tagId)) == {"name"}
    ensures NameErrors(tags, Some(tags[other].name), None) == {"name"}
  {
    assert NameUsed(tags, tags[other].name, Some(tagId));
    assert NameUsed(tags, tags[other].name, None);
  }

  /** `destroy`: deletes the tag with no further condition. */
  method Destroy(s: Store, caller: User, tagId: Id) returns (r: Reply<()>)
    requires s.Valid()
    modifies s`tags
    ensures s.Valid()
    ensures tagId !in old(s.tags) ==> r == Err(NotFound) && unchanged(s)
    ensures tagId in old(s.tags) && caller.role != TaskAdmin ==> r == Err(Forbidden) && unchanged(s)
    ensures tagId in old(s.tags) && caller.role == TaskAdmin ==>
      r == Ok(200, ()) && s.tags == old(s.tags) - {tagId}
  {
    if tagId !in s.tags {
      return Err(NotFound);
    }
    if caller.role != TaskAdmin {
      return Err(Forbidden);
    }
    s.tags := s.tags - {tagId};
    r := Ok(200, ());
  }
}
