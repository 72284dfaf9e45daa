/**
 * The group and commitment-card handlers of app.py as a small state machine
 * over two collections, Groups and Cards. Each handler's decision is a pure
 * function of the collections and the request body; the class applies it.
 *
 * A request body is the decoded JSON value (`request.json`); Python raises
 * when the handlers call `.get` on anything but an object, and the handler
 * answers 500, which is `ServerError` here. Ids are opaque strings.
 */
module Commitments {
  import opened Wrappers
  import opened JsonValues

  /** A document id, in the text form that the URL path carries. */
  type Oid = string

  /** A stored group: `{name, privacy, password}` under its id. */
  datatype Group = Group(id: Oid, name: Value, privacy: Value, password: Value)

  /** A stored commitment card: its id and its fields. */
  datatype Card = Card(id: Oid, fields: Document)

  /** The answers the handlers give: 200, 201, 400 with its message, 403
      and 500. */
  datatype Reply<T> =
    | Ok(value: T)
    | Created(value: T)
    | BadRequest(error: string)
    | Forbidden
    | ServerError

  const Private: Value := Str("private")

  const NameAndPrivacyRequired: string := "Group name and privacy are required"
  const NameMustBeUnique: string := "Group name must be unique"
  const InvalidInputData: string := "Invalid input data"
  const TitleAndDescriptionRequired: string := "Title and description must be non-empty strings"
  const NoSearchQuery: string := "No search query provided"

  /** The password kept for a new group: the supplied one only for a
      private group, `None` otherwise. */
  function StoredPassword(privacy: Value, password: Value): Value
  {
    if privacy == Private then password else Null
  }

  /** The filter of a `find_one` on Groups: by name, or by id. */
  datatype Selector = ByName(name: Value) | ById(id: Oid)

  predicate Selects(q: Selector, g: Group)
  {
    match q
    case ByName(name) => g.name == name
    case ById(id) => g.id == id
  }

  /** `find_one(filter)`: the first group in store order that the filter selects. */
  function FindGroup(groups: seq<Group>, q: Selector): (r: Option<Group>)
    ensures r.Some? <==> exists i | 0 <= i < |groups| :: Selects(q, groups[i])
    ensures r.Some? ==> r.value in groups && Selects(q, r.value)
  {
    if groups == [] then None
    else if Selects(q, groups[0]) then Some(groups[0])
    else FindGroup(groups[1..], q)
  }

  /** `find_one({"name": name})`. */
  function GroupNamed(groups: seq<Group>, name: Value): Option<Group>
  {
    FindGroup(groups, ByName(name))
  }

  /** `find_one({"_id": ObjectId(id)})`. */
  function GroupWithId(groups: seq<Group>, id: Oid): Option<Group>
  {
    FindGroup(groups, ById(id))
  }

  /** `find({"group_id": id})`: the cards tagged with the group, in store order. */
  function CardsOfGroup(cards: seq<Card>, id: Oid): (r: seq<Card>)
    ensures |r| <= |cards|
    ensures forall i | 0 <= i < |r| :: r[i] in cards && Get(r[i].fields, "group_id") == Str(id)
  {
    if cards == [] then []
    else
      (if Get(cards[0].fields, "group_id") == Str(id) then [cards[0]] else [])
      + CardsOfGroup(cards[1..], id)
  }

  /** The rules every group created through `create_group` obeys. */
  ghost predicate GroupsValid(groups: seq<Group>)
  {
    && (forall i, j | 0 <= i < j < |groups| :: groups[i].name != groups[j].name)
    && (forall i, j | 0 <= i < j < |groups| :: groups[i].id != groups[j].id)
    && (forall i | 0 <= i < |groups| ::
          Truthy(groups[i].name) && Truthy(groups[i].privacy)
          && (groups[i].password != Null ==> groups[i].privacy == Private))
  }

  /** No id names two cards. */
  ghost predicate CardIdsDistinct(cards: seq<Card>)
  {
    forall i, j | 0 <= i < j < |cards| :: cards[i].id != cards[j].id
  }

  /** `create_group`: required fields, a unique name, and a password kept
      only for a private group. */
  function CreateGroupReply(groups: seq<Group>, body: Value, oid: Oid): (r: Reply<Group>)
    ensures r.ServerError? <==> !body.Obj?
    ensures r.Created? <==>
      && body.Obj?
      && Truthy(Get(body.fields, "name")) && Truthy(Get(body.fields, "privacy"))
      && forall g | g in groups :: g.name != Get(body.fields, "name")
    ensures r.Created? ==>
      && r.value.id == oid
      && r.value.name == Get(body.fields, "name")
      && r.value.privacy == Get(body.fields, "privacy")
      && (r.value.privacy == Private ==> r.value.password == Get(body.fields, "password"))
      && (r.value.privacy != Private ==> r.value.password == Null)
    ensures r == BadRequest(NameAndPrivacyRequired) <==>
      body.Obj? && (!Truthy(Get(body.fields, "name")) || !Truthy(Get(body.fields, "privacy")))
    ensures r == BadRequest(NameMustBeUnique) <==>
      && body.Obj?
      && Truthy(Get(body.fields, "name")) && Truthy(Get(body.fields, "privacy"))
      && exists g | g in groups :: g.name == Get(body.fields, "name")
    ensures r.BadRequest? ==> r.error in {NameAndPrivacyRequired, NameMustBeUnique}
    ensures !r.Forbidden? && !r.Ok?
  {
    if !body.Obj? then ServerError
    else
      var name := Get(body.fields, "name");
      var privacy := Get(body.fields, "privacy");
      var password := Get(body.fields, "password");
      if !Truthy(name) || !Truthy(privacy) then BadRequest(NameAndPrivacyRequired)
      else if GroupNamed(groups, name).Some? then BadRequest(NameMustBeUnique)
      else Created(Group(oid, name, privacy, StoredPassword(privacy, password)))
  }

  /** `verify_group_password`: success exactly for a private group whose
      stored password equals the supplied one. */
  function VerifyReply(groups: seq<Group>, id: Oid, body: Value): (r: Reply<bool>)
    ensures r.ServerError? <==> !body.Obj? || GroupWithId(groups, id).None?
    ensures r.Ok? <==>
      && body.Obj?
      && GroupWithId(groups, id).Some?
      && GroupWithId(groups, id).value.privacy == Private
      && GroupWithId(groups, id).value.password == Get(body.fields, "password")
    ensures r.Ok? ==> r.value
    ensures r.Ok? || r.Forbidden? || r.ServerError?
  {
    if !body.Obj? then ServerError
    else
      var password := Get(body.fields, "password");
      match GroupWithId(groups, id)
      case None => ServerError
      case Some(g) =>
        if g.privacy == Private && g.password == password then Ok(true) else Forbidden
  }

  /** The card `add_commitment_to_group` stores: title and description from
      the body, `group_id` from the path. */
  function GroupCard(oid: Oid, id: Oid, body: Document): Card
  {
    Card(oid, map["title" := Get(body, "title"),
                  "description" := Get(body, "description"),
                  "group_id" := Str(id)])
  }

  /** `add_commitment_to_group`: a private group demands its password, a
      public one takes any body. */
  function AddToGroupReply(groups: seq<Group>, id: Oid, body: Value, oid: Oid): (r: Reply<Card>)
    ensures GroupWithId(groups, id).None? ==> r == ServerError
    ensures r.Forbidden? <==>
      && GroupWithId(groups, id).Some?
      && GroupWithId(groups, id).value.privacy == Private
      && body.Obj?
      && Get(body.fields, "password") != GroupWithId(groups, id).value.password
    ensures r.Created? <==>
      && GroupWithId(groups, id).Some?
      && body.Obj?
      && (GroupWithId(groups, id).value.privacy == Private ==>
            Get(body.fields, "password") == GroupWithId(groups, id).value.password)
    ensures r.Created? ==>
      && r.value.id == oid
      && Get(r.value.fields, "group_id") == Str(id)
      && Get(r.value.fields, "title") == Get(body.fields, "title")
      && Get(r.value.fields, "description") == Get(body.fields, "description")
      && r.value.fields.Keys == {"title", "description", "group_id"}
    ensures r.Created? || r.Forbidden? || r.ServerError?
  {
    match GroupWithId(groups, id)
    case None => ServerError
    case Some(g) =>
      if !body.Obj? then ServerError
      else if g.privacy == Private && Get(body.fields, "password") != g.password then Forbidden
      else Created(GroupCard(oid, id, body.fields))
  }

  /** `add_commitment`: a non-empty object whose title and description are
      non-empty strings is stored as it is. */
  function AddCommitmentReply(body: Value, oid: Oid): (r: Reply<Card>)
    ensures r.Created? <==>
      body.Obj? && NonEmptyString(Get(body.fields, "title"))
      && NonEmptyString(Get(body.fields, "description"))
    ensures r.Created? ==> r.value == Card(oid, body.fields)
    ensures !r.Created? ==> r.BadRequest?
    ensures r == BadRequest(InvalidInputData) <==> !body.Obj? || body.fields == map[]
    ensures r == BadRequest(TitleAndDescriptionRequired) <==>
      && body.Obj? && body.fields != map[]
      && !(NonEmptyString(Get(body.fields, "title")) && NonEmptyString(Get(body.fields, "description")))
  {
    if !Truthy(body) || !body.Obj? then BadRequest(InvalidInputData)
    else
      var title := Get(body.fields, "title");
      var description := Get(body.fields, "description");
      if !Truthy(title) || !title.Str? || !Truthy(description) || !description.Str?
      then BadRequest(TitleAndDescriptionRequired)
      else Created(Card(oid, body.fields))
  }

  /** `find({"name": {"$regex": query, "$options": "i"}})`: the groups whose
      name the regular-expression engine accepts, in store order. */
  function GroupsMatching(groups: seq<Group>, nameMatches: Value -> bool): (r: seq<Group>)
    ensures forall i | 0 <= i < |r| :: r[i] in groups && nameMatches(r[i].name)
    ensures forall g | g in groups && nameMatches(g.name) :: g in r
  {
    if groups == [] then []
    else
      (if nameMatches(groups[0].name) then [groups[0]] else [])
      + GroupsMatching(groups[1..], nameMatches)
  }

  /** `search_groups`: an empty query is refused before the store is asked;
      a pattern the store cannot compile makes the query raise, which is 500. */
  function SearchReply(groups: seq<Group>, query: string, patternCompiles: bool,
                       nameMatches: Value -> bool): (r: Reply<seq<Group>>)
    ensures query == [] <==> r == BadRequest(NoSearchQuery)
    ensures r == ServerError <==> query != [] && !patternCompiles
    ensures r.Ok? <==> query != [] && patternCompiles
    ensures r.Ok? ==> forall i | 0 <= i < |r.value| :: r.value[i] in groups && nameMatches(r.value[i].name)
    ensures r.Ok? ==> forall g | g in groups && nameMatches(g.name) :: g in r.value
  {
    if query == [] then BadRequest(NoSearchQuery)
    else if !patternCompiles then ServerError
    else Ok(GroupsMatching(groups, nameMatches))
  }

  /** A lookup in a grown collection finds an old group first, else the
      new one. */
  lemma {:induction false} FindGroupAppend(groups: seq<Group>, g: Group, q: Selector)
    ensures FindGroup(groups + [g], q) ==
      if FindGroup(groups, q).Some? then FindGroup(groups, q)
      else if Selects(q, g) then Some(g) else None
  {
    if groups != [] {
      assert (groups + [g])[1..] == groups[1..] + [g];
      FindGroupAppend(groups[1..], g, q);
    }
  }

  /** Appending a card appends it to its group's listing and to no other. */
  lemma {:induction false} CardsOfGroupAppend(cards: seq<Card>, c: Card, id: Oid)
    ensures CardsOfGroup(cards + [c], id) ==
      CardsOfGroup(cards, id) + (if Get(c.fields, "group_id") == Str(id) then [c] else [])
  {
    if cards == [] {
      assert cards + [c] == [c];
    } else {
      assert (cards + [c])[1..] == cards[1..] + [c];
      CardsOfGroupAppend(cards[1..], c, id);
    }
  }

  /** The search keeps store order: searching a concatenation gives the
      concatenation of the searches. */
  lemma {:induction false} GroupsMatchingAppend(a: seq<Group>, b: seq<Group>, nameMatches: Value -> bool)
    ensures GroupsMatching(a + b, nameMatches) == GroupsMatching(a, nameMatches) + GroupsMatching(b, nameMatches)
  {
    if a == [] {
      assert a + b == b;
    } else {
      assert (a + b)[1..] == a[1..] + b;
      GroupsMatchingAppend(a[1..], b, nameMatches);
    }
  }

  /** Every card tagged with the group is listed. */
  lemma {:induction false} CardsOfGroupComplete(cards: seq<Card>, id: Oid, i: nat)
    requires i < |cards| && Get(cards[i].fields, "group_id") == Str(id)
    ensures cards[i] in CardsOfGroup(cards, id)
  {
    if i > 0 {
      CardsOfGroupComplete(cards[1..], id, i - 1);
    }
  }

  /** A successful create keeps names and ids distinct, the required fields
      present and passwords only on private groups. */
  lemma CreateKeepsGroupsValid(groups: seq<Group>, body: Value, oid: Oid)
    requires GroupsValid(groups)
    requires forall g | g in groups :: g.id != oid
    requires CreateGroupReply(groups, body, oid).Created?
    ensures GroupsValid(groups + [CreateGroupReply(groups, body, oid).value])
  {
  }

  /** Creating a group whose name is taken is refused, so the same create
      request succeeds at most once. */
  lemma CreateTwiceRefused(groups: seq<Group>, body: Value, oid: Oid, oid2: Oid)
    requires CreateGroupReply(groups, body, oid).Created?
    ensures CreateGroupReply(groups + [CreateGroupReply(groups, body, oid).value], body, oid2)
      == BadRequest(NameMustBeUnique)
  {
  }

  /** After a private group is created, verification succeeds exactly for a
      body carrying the password it was created with. */
  lemma CreateThenVerify(groups: seq<Group>, body: Value, oid: Oid, attempt: Value)
    requires forall g | g in groups :: g.id != oid
    requires CreateGroupReply(groups, body, oid).Created?
    requires Get(body.fields, "privacy") == Private
    requires attempt.Obj?
    ensures VerifyReply(groups + [CreateGroupReply(groups, body, oid).value], oid, attempt).Ok?
      <==> Get(attempt.fields, "password") == Get(body.fields, "password")
  {
    var g := CreateGroupReply(groups, body, oid).value;
    FindGroupAppend(groups, g, ById(oid));
  }

  /** A group created public can never be verified, whatever password is
      supplied. */
  lemma CreatePublicThenVerify(groups: seq<Group>, body: Value, oid: Oid, attempt: Value)
    requires forall g | g in groups :: g.id != oid
    requires CreateGroupReply(groups, body, oid).Created?
    requires Get(body.fields, "privacy") != Private
    requires attempt.Obj?
    ensures VerifyReply(groups + [CreateGroupReply(groups, body, oid).value], oid, attempt) == Forbidden
  {
    var g := CreateGroupReply(groups, body, oid).value;
    FindGroupAppend(groups, g, ById(oid));
  }

  /** For a private group the password gate of `add_commitment_to_group`
      admits exactly the bodies that `verify_group_password` accepts; a
      public group admits every body that verification refuses. */
  lemma GateAgreesWithVerify(groups: seq<Group>, id: Oid, body: Value, oid: Oid)
    requires body.Obj? && GroupWithId(groups, id).Some?
    ensures GroupWithId(groups, id).value.privacy == Private ==>
      (AddToGroupReply(groups, id, body, oid).Created? <==> VerifyReply(groups, id, body).Ok?)
    ensures GroupWithId(groups, id).value.privacy != Private ==>
      AddToGroupReply(groups, id, body, oid).Created? && VerifyReply(groups, id, body) == Forbidden
  {
  }

  /** A card added through a group is listed for that group, after the
      cards already there. */
  lemma AddedCardIsListed(groups: seq<Group>, cards: seq<Card>, id: Oid, body: Value, oid: Oid)
    requires AddToGroupReply(groups, id, body, oid).Created?
    ensures CardsOfGroup(cards + [AddToGroupReply(groups, id, body, oid).value], id)
      == CardsOfGroup(cards, id) + [AddToGroupReply(groups, id, body, oid).value]
  {
    CardsOfGroupAppend(cards, AddToGroupReply(groups, id, body, oid).value, id);
  }

  /** The two collections of the CommitmentCards database. */
  class CommitmentStore {
    var groups: seq<Group>
    var cards: seq<Card>

    ghost predicate Valid()
      reads this
    {
      GroupsValid(groups) && CardIdsDistinct(cards)
    }

    /** The collections as the database holds them when the handlers start;
        they were filled by earlier runs of the same handlers. */
    constructor (existingGroups: seq<Group>, existingCards: seq<Card>)
      requires GroupsValid(existingGroups) && CardIdsDistinct(existingCards)
      ensures Valid() && groups == existingGroups && cards == existingCards
    {
      groups := existingGroups;
      cards := existingCards;
    }

    /** `create_group`; `oid` is the id the store assigns to the insert. */
    method CreateGroup(body: Value, oid: Oid) returns (r: Reply<Group>)
      requires Valid()
      requires forall g | g in groups :: g.id != oid
      modifies this
      ensures Valid()
      ensures r == CreateGroupReply(old(groups), body, oid)
      ensures groups == if r.Created? then old(groups) + [r.value] else old(groups)
      ensures cards == old(cards)
    {
      if !body.Obj? {
        return ServerError;
      }
      var name := Get(body.fields, "name");
      var privacy := Get(body.fields, "privacy");
      var password := Get(body.fields, "password");
      if !Truthy(name) || !Truthy(privacy) {
        return BadRequest(NameAndPrivacyRequired);
      }
      var existing := GroupNamed(groups, name);
      if existing.Some? {
        return BadRequest(NameMustBeUnique);
      }
      var group := Group(oid, name, privacy, if privacy == Private then password else Null);
      CreateKeepsGroupsValid(groups, body, oid);
      groups := groups + [group];
      r := Created(group);
    }

    /** `verify_group_password`. */
    method VerifyGroupPassword(id: Oid, body: Value) returns (r: Reply<bool>)
      ensures r == VerifyReply(groups, id, body)
    {
      if !body.Obj? {
        return ServerError;
      }
      var password := Get(body.fields, "password");
      var group := GroupWithId(groups, id);
      if group.None? {
        return ServerError;
      }
      if group.value.privacy == Private && group.value.password == password {
        r := Ok(true);
      } else {
        r := Forbidden;
      }
    }

    /** `add_commitment_to_group`; `oid` is the id the store assigns. */
    method AddCommitmentToGroup(id: Oid, body: Value, oid: Oid) returns (r: Reply<Card>)
      requires Valid()
      requires forall c | c in cards :: c.id != oid
      modifies this
      ensures Valid()
      ensures r == AddToGroupReply(old(groups), id, body, oid)
      ensures cards == if r.Created? then old(cards) + [r.value] else old(cards)
      ensures groups == old(groups)
    {
      var group := GroupWithId(groups, id);
      if group.None? {
        return ServerError;
      }
      if group.value.privacy == Private {
        if !body.Obj? {
          return ServerError;
        }
        if Get(body.fields, "password") != group.value.password {
          return Forbidden;
        }
      }
      if !body.Obj? {
        return ServerError;
      }
      var card := GroupCard(oid, id, body.fields);
      cards := cards + [card];
      r := Created(card);
    }

    /** `get_commitments_for_group`. */
    method GetCommitmentsForGroup(id: Oid) returns (r: seq<Card>)
      ensures r == CardsOfGroup(cards, id)
      ensures forall c | c in r :: c in cards && Get(c.fields, "group_id") == Str(id)
    {
      r := CardsOfGroup(cards, id);
    }

    /** `get_commitments`: every card, in store order. */
    method GetCommitments() returns (r: seq<Card>)
      ensures r == cards
    {
      r := cards;
    }

    /** `add_commitment`; `oid` is the id the store assigns. */
    method AddCommitment(body: Value, oid: Oid) returns (r: Reply<Card>)
      requires Valid()
      requires forall c | c in cards :: c.id != oid
      modifies this
      ensures Valid()
      ensures r == AddCommitmentReply(body, oid)
      ensures cards == if r.Created? then old(cards) + [r.value] else old(cards)
      ensures groups == old(groups)
    {
      if !Truthy(body) || !body.Obj? {
        return BadRequest(InvalidInputData);
      }
      var title := Get(body.fields, "title");
      var description := Get(body.fields, "description");
      if !Truthy(title) || !title.Str? || !Truthy(description) || !description.Str? {
        return BadRequest(TitleAndDescriptionRequired);
      }
      var card := Card(oid, body.fields);
      cards := cards + [card];
      r := Created(card);
    }

    /** `search_groups`; `patternCompiles` says whether the store accepts the
        query as a regular expression, and `nameMatches` stands for its
        case-insensitive match against a name. */
    method SearchGroups(query: string, patternCompiles: bool, nameMatches: Value -> bool)
      returns (r: Reply<seq<Group>>)
      ensures r == SearchReply(groups, query, patternCompiles, nameMatches)
    {
      if query == [] {
        return BadRequest(NoSearchQuery);
      }
      if !patternCompiles {
        return ServerError;
      }
      r := Ok(GroupsMatching(groups, nameMatches));
    }
  }
}
