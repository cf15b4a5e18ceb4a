/** The club registry (`clubs.service.ts`): plain create, read, update and
    delete over the `clubs` table, listed by name. */
module Clubs {
  import opened Common
  import opened Tables
  import opened Sorting
  import opened Strings

  datatype Club = Club(
    id: string,
    name: string,
    address: string,
    pictureUrl: Option<string>,
    phone: Option<string>,
    email: Option<string>,
    website: Option<string>,
    appUrl: Option<string>,
    pixKey: Option<string>)

  datatype CreateClubDto = CreateClubDto(
    name: string,
    address: string,
    pictureUrl: Option<string>,
    phone: Option<string>,
    email: Option<string>,
    website: Option<string>,
    appUrl: Option<string>,
    pixKey: Option<string>)

  /** Every field of the creation DTO, each optional. */
  datatype UpdateClubDto = UpdateClubDto(
    name: Option<string>,
    address: Option<string>,
    pictureUrl: Option<string>,
    phone: Option<string>,
    email: Option<string>,
    website: Option<string>,
    appUrl: Option<string>,
    pixKey: Option<string>)

  function ClubIdOf(c: Club): string { c.id }

  /** `order: { name: 'ASC' }`. */
  predicate NameLe(a: Club, b: Club) {
    StrLe(a.name, b.name)
  }

  lemma NameLeIsTotalPreorder()
    ensures TotalPreorder(NameLe)
  {
    forall a: Club, b: Club ensures NameLe(a, b) || NameLe(b, a) {
      StrLeTotal(a.name, b.name);
    }
    forall a: Club, b: Club, c: Club | NameLe(a, b) && NameLe(b, c) ensures NameLe(a, c) {
      StrLeTransitive(a.name, b.name, c.name);
    }
  }

  function IndexOfClub(clubs: seq<Club>, id: string): Option<nat> {
    FindFirst(clubs, (c: Club) => c.id == id)
  }

  /** `repository.create(dto)` with the generated id. */
  function NewClub(dto: CreateClubDto, id: string): (c: Club)
    ensures c.id == id && c.name == dto.name && c.address == dto.address
    ensures c.pictureUrl == dto.pictureUrl && c.phone == dto.phone && c.email == dto.email
    ensures c.website == dto.website && c.appUrl == dto.appUrl && c.pixKey == dto.pixKey
  {
    Club(id, dto.name, dto.address, dto.pictureUrl, dto.phone, dto.email, dto.website, dto.appUrl, dto.pixKey)
  }

  /** `Object.assign(club, dto)`: each provided field overwrites, the rest stay. */
  function ApplyClubUpdate(c: Club, dto: UpdateClubDto): (r: Club)
    ensures r.id == c.id
    ensures r.name == dto.name.GetOr(c.name) && r.address == dto.address.GetOr(c.address)
    ensures r.phone == dto.phone.Or(c.phone) && r.email == dto.email.Or(c.email)
    ensures r.pictureUrl == dto.pictureUrl.Or(c.pictureUrl) && r.website == dto.website.Or(c.website)
    ensures r.appUrl == dto.appUrl.Or(c.appUrl) && r.pixKey == dto.pixKey.Or(c.pixKey)
  {
    Club(c.id, dto.name.GetOr(c.name), dto.address.GetOr(c.address), dto.pictureUrl.Or(c.pictureUrl),
         dto.phone.Or(c.phone), dto.email.Or(c.email), dto.website.Or(c.website),
         dto.appUrl.Or(c.appUrl), dto.pixKey.Or(c.pixKey))
  }

  /** An update that provides nothing changes nothing. */
  lemma EmptyClubUpdate(c: Club)
    ensures ApplyClubUpdate(c, UpdateClubDto(None, None, None, None, None, None, None, None)) == c
  {
  }

  /** Applying the same update twice is applying it once. */
  lemma ClubUpdateIdempotent(c: Club, dto: UpdateClubDto)
    ensures ApplyClubUpdate(ApplyClubUpdate(c, dto), dto) == ApplyClubUpdate(c, dto)
  {
  }

  /** A created club is found by its id with the stored fields. */
  lemma CreatedClubFound(clubs: seq<Club>, dto: CreateClubDto, id: string)
    requires DistinctBy(clubs, ClubIdOf) && !HasKey(clubs, ClubIdOf, id)
    ensures var s := clubs + [NewClub(dto, id)];
      DistinctBy(s, ClubIdOf) && IndexOfClub(s, id) == Some(|clubs|) && s[|clubs|] == NewClub(dto, id)
  {
    var s := clubs + [NewClub(dto, id)];
    forall k | 0 <= k < |clubs| ensures s[k].id != id {
      assert ClubIdOf(clubs[k]) != id;
    }
    var f := IndexOfClub(s, id);
    assert s[|clubs|].id == id;
    assert f.value == |clubs|;
  }

  /** After a removal the id is gone and the other clubs are all kept, in order. */
  lemma RemovedClubGone(clubs: seq<Club>, i: nat)
    requires DistinctBy(clubs, ClubIdOf) && i < |clubs|
    ensures var s := RemoveAt(clubs, i);
      && DistinctBy(s, ClubIdOf)
      && IndexOfClub(s, clubs[i].id).None?
      && (forall j :: 0 <= j < |clubs| && j != i ==> clubs[j] in s)
  {
    var s := RemoveAt(clubs, i);
    forall a, b | 0 <= a < b < |s| ensures ClubIdOf(s[a]) != ClubIdOf(s[b]) {
      assert s[a] == clubs[if a < i then a else a + 1];
      assert s[b] == clubs[if b < i then b else b + 1];
    }
    forall k | 0 <= k < |s| ensures s[k].id != clubs[i].id {
      var j := if k < i then k else k + 1;
      assert s[k] == clubs[j];
      assert ClubIdOf(clubs[j]) != ClubIdOf(clubs[i]);
    }
    forall j | 0 <= j < |clubs| && j != i ensures clubs[j] in s {
      assert s[if j < i then j else j - 1] == clubs[j];
    }
  }

  /** A lookup finds the only club with that id. */
  lemma ClubLookupUnique(clubs: seq<Club>, k: nat)
    requires DistinctBy(clubs, ClubIdOf) && k < |clubs|
    ensures IndexOfClub(clubs, clubs[k].id) == Some(k)
  {
    var r := IndexOfClub(clubs, clubs[k].id);
    assert r.Some?;
    assert ClubIdOf(clubs[r.value]) == ClubIdOf(clubs[k]);
  }

  class ClubsService {
    var clubs: seq<Club>

    ghost predicate Valid()
      reads this
    {
      DistinctBy(clubs, ClubIdOf)
    }

    constructor ()
      ensures Valid() && clubs == []
    {
      clubs := [];
    }

    /** `create`: the new club, found by its id afterwards. */
    method Create(dto: CreateClubDto, newId: string) returns (c: Club)
      requires Valid()
      requires !HasKey(clubs, ClubIdOf, newId)
      modifies this
      ensures Valid()
      ensures c == NewClub(dto, newId) && clubs == old(clubs) + [c]
      ensures IndexOfClub(clubs, newId) == Some(|old(clubs)|)
    {
      c := NewClub(dto, newId);
      CreatedClubFound(clubs, dto, newId);
      clubs := clubs + [c];
    }

    /** `findAll`: every club, by name. */
    method FindAll() returns (r: seq<Club>)
      ensures multiset(r) == multiset(clubs)
      ensures Sorted(r, NameLe)
    {
      NameLeIsTotalPreorder();
      SortSorted(clubs, NameLe);
      r := Sort(clubs, NameLe);
    }

    /** `findOne`: NotFound for an unknown id. */
    method FindOne(id: string) returns (r: Result<Club>)
      ensures r.Err? <==> !HasKey(clubs, ClubIdOf, id)
      ensures r.Err? ==> r.error == NotFound
      ensures r.Ok? ==> r.value in clubs && r.value.id == id
    {
      var found := IndexOfClub(clubs, id);
      if found.None? {
        assert forall k :: 0 <= k < |clubs| ==> ClubIdOf(clubs[k]) != id;
        return Err(NotFound);
      }
      assert ClubIdOf(clubs[found.value]) == id;
      r := Ok(clubs[found.value]);
    }

    /** `update`: NotFound for an unknown id, otherwise the merged club in
        place; no other club changes. */
    method Update(id: string, dto: UpdateClubDto) returns (r: Result<Club>)
      requires Valid()
      modifies this
      ensures Valid()
      ensures IndexOfClub(old(clubs), id).None? ==> r == Err(NotFound) && clubs == old(clubs)
      ensures IndexOfClub(old(clubs), id).Some? ==>
        var i := IndexOfClub(old(clubs), id).value;
        r == Ok(ApplyClubUpdate(old(clubs)[i], dto)) && clubs == old(clubs)[i := ApplyClubUpdate(old(clubs)[i], dto)]
    {
      var found := IndexOfClub(clubs, id);
      if found.None? {
        return Err(NotFound);
      }
      var i := found.value;
      var c := ApplyClubUpdate(clubs[i], dto);
      var s := clubs[i := c];
      forall a, b | 0 <= a < b < |s| ensures ClubIdOf(s[a]) != ClubIdOf(s[b]) {
        assert ClubIdOf(s[a]) == ClubIdOf(clubs[a]) && ClubIdOf(s[b]) == ClubIdOf(clubs[b]);
      }
      clubs := s;
      r := Ok(c);
    }

    /** `remove`: NotFound for an unknown id; a club some match still refers
        to is kept by the NO ACTION foreign key of `matches.clubId`. */
    method Remove(id: string, inUse: set<string>) returns (r: Result<()>)
      requires Valid()
      modifies this
      ensures Valid()
      ensures IndexOfClub(old(clubs), id).None? ==> r == Err(NotFound) && clubs == old(clubs)
      ensures IndexOfClub(old(clubs), id).Some? && id in inUse ==>
        r == Err(ForeignKeyViolation) && clubs == old(clubs)
      ensures IndexOfClub(old(clubs), id).Some? && id !in inUse ==>
        r == Ok(()) && clubs == RemoveAt(old(clubs), IndexOfClub(old(clubs), id).value)
        && IndexOfClub(clubs, id).None?
    {
      var found := IndexOfClub(clubs, id);
      if found.None? {
        return Err(NotFound);
      }
      if id in inUse {
        return Err(ForeignKeyViolation);
      }
      RemovedClubGone(clubs, found.value);
      clubs := RemoveAt(clubs, found.value);
      r := Ok(());
    }
  }
}
