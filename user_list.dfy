/** The member directory: the normalisation of the fetched JSON body, the
    fetch / refresh state machine over `users`, `loading` and `refreshing`,
    the per-field display fallbacks of a row, and the choice between the
    spinner, the list and the empty-list message. */
module UserList {
  import opened Runtime

  // ---------------------------------------------------------------------
  // Normalising the response body

  /** The `users` property of the body, read with optional chaining:
      undefined for `null` instead of a throw. */
  function UsersField(data: Json): (r: Option<Json>)
    ensures data.JNull? ==> r.None?
  {
    if data.JNull? then None else Property(data, "users")
  }

  /** The value fetchUsers stores in `users`, as the code is written: the
      body when it is an array, otherwise its `users` property when that is
      truthy, otherwise the empty array. It is an array unless the body is a
      non-array whose `users` property is a truthy non-array. */
  function NormaliseAsWritten(data: Json): (r: Json)
    ensures data.JArray? ==> r == data
    ensures !data.JArray? && UsersField(data).Some? && Truthy(UsersField(data).value) ==>
      r == UsersField(data).value
    ensures !data.JArray? && !(UsersField(data).Some? && Truthy(UsersField(data).value)) ==>
      r == JArray([])
    ensures r.JArray? <==>
      (data.JArray? || !(UsersField(data).Some? && Truthy(UsersField(data).value))
       || UsersField(data).value.JArray?)
  {
    if data.JArray? then data else Or(UsersField(data), JArray([]))
  }

  /** A body `{"users": "x"}` puts the string "x", not a list, into `users`. */
  lemma NonArrayUsersStored()
    ensures var body := JObject(map["users" := JString("x")]);
      NormaliseAsWritten(body) == JString("x") && !NormaliseAsWritten(body).JArray?
  {
  }

  /** The list a response body denotes: the body itself when it is an
      array, otherwise its `users` property when that is an array, and the
      empty list in every other case. */
  function Normalise(data: Json): (r: seq<Json>)
    ensures data.JArray? ==> r == data.items
    ensures !data.JArray? && UsersField(data).Some? && UsersField(data).value.JArray? ==>
      r == UsersField(data).value.items
    ensures r != [] ==> data.JArray? || (UsersField(data).Some? && UsersField(data).value.JArray?)
  {
    if data.JArray? then data.items
    else match UsersField(data)
      case Some(JArray(items)) => items
      case _ => []
  }

  /** The list used and the list as written agree whenever what is written
      is a list; they differ only for a truthy non-array `users`, where the
      list used is empty. */
  lemma NormaliseAgreesWithAsWritten(data: Json)
    ensures NormaliseAsWritten(data).JArray? ==> JArray(Normalise(data)) == NormaliseAsWritten(data)
    ensures !NormaliseAsWritten(data).JArray? ==>
      && !data.JArray? && UsersField(data).Some?
      && Truthy(UsersField(data).value) && !UsersField(data).value.JArray?
      && Normalise(data) == []
  {
  }

  /** `[]`, `{}` and `null` all normalise to the empty list, and so does an
      object whose `users` is missing or falsy. */
  lemma NormaliseEmptyBodies(v: Json)
    requires v.JNull? || v == JArray([]) || v == JObject(map[])
             || (v.JObject? && ("users" !in v.fields || !Truthy(v.fields["users"])))
    ensures Normalise(v) == [] && NormaliseAsWritten(v) == JArray([])
  {
  }

  /** How fetchUsers' try block ends: the body `response.json()` parsed,
      or an error thrown by `fetch` or by the parse. */
  datatype FetchOutcome = Threw | Body(data: Json)

  /** The value fetchUsers gives `users`: the normalised body, or the
      empty list when something threw. It depends on the outcome alone, so
      the previous list is replaced, never merged into. */
  function FetchResult(outcome: FetchOutcome): (r: seq<Json>)
    ensures outcome.Threw? ==> r == []
    ensures outcome.Body? ==> r == Normalise(outcome.data)
  {
    match outcome
    case Threw => []
    case Body(data) => Normalise(data)
  }

  // ---------------------------------------------------------------------
  // Rendering

  const PlaceholderPhoto := "https://via.placeholder.com/50"

  /** What a row shows: the photo address and four lines of text, each a
      value read from the record or the fallback put in its place. */
  datatype Card = Card(photo: Json, name: Json, email: Json, phoneNumber: Json, gender: Json)

  /** One line of a card: the record's field when it is truthy, the
      fallback text otherwise. */
  function Shown(item: Json, key: string, fallback: string): (r: Json)
    requires !item.JNull? && fallback != ""
    ensures Truthy(r)
    ensures Property(item, key).Some? && Truthy(Property(item, key).value) ==> r == Property(item, key).value
    ensures !(Property(item, key).Some? && Truthy(Property(item, key).value)) ==> r == JString(fallback)
  {
    Or(Property(item, key), JString(fallback))
  }

  /** renderUser: every field of the record falls back to its default when
      it is missing or falsy. Reading a field of a `null` record throws,
      which is the None case. */
  function RenderUser(item: Json): (r: Option<Card>)
    ensures r.None? <==> item.JNull?
    ensures r.Some? ==>
      && r.value.photo == Shown(item, "Photo", PlaceholderPhoto)
      && r.value.name == Shown(item, "Name", "Unknown")
      && r.value.email == Shown(item, "Email", "No email")
      && r.value.phoneNumber == Shown(item, "PhoneNumber", "N/A")
      && r.value.gender == Shown(item, "Gender", "N/A")
  {
    if item.JNull? then None
    else Some(Card(
      Shown(item, "Photo", PlaceholderPhoto),
      Shown(item, "Name", "Unknown"),
      Shown(item, "Email", "No email"),
      Shown(item, "PhoneNumber", "N/A"),
      Shown(item, "Gender", "N/A")))
  }

  /** No line of a card is ever falsy, and a record whose five fields are
      all present and truthy is shown as it is. */
  lemma CardShowsRecord(item: Json)
    requires !item.JNull?
    ensures var c := RenderUser(item).value;
      Truthy(c.photo) && Truthy(c.name) && Truthy(c.email) && Truthy(c.phoneNumber) && Truthy(c.gender)
    ensures item.JObject?
      && (forall k :: k in ["Photo", "Name", "Email", "PhoneNumber", "Gender"] ==> k in item.fields && Truthy(item.fields[k]))
      ==> RenderUser(item).value == Card(item.fields["Photo"], item.fields["Name"], item.fields["Email"],
                                         item.fields["PhoneNumber"], item.fields["Gender"])
  {
  }

  /** A bare array `[{"Name": "A"}]` gives one member shown as "A" with
      every other line at its fallback. */
  lemma SingleNamedMember()
    ensures var users := Normalise(JArray([JObject(map["Name" := JString("A")])]));
      |users| == 1
      && RenderUser(users[0]) == Some(Card(JString(PlaceholderPhoto), JString("A"), JString("No email"),
                                           JString("N/A"), JString("N/A")))
  {
  }

  /** A list row: its key, the position written in decimal, and its card. */
  datatype Row = Row(key: string, card: Option<Card>)

  /** The screen: the spinner while loading, otherwise the header with the
      member count above the list, or above the empty-list message when
      there is nobody to show. */
  datatype Screen =
    | Spinner(caption: string)
    | Directory(title: string, countLabel: string, rows: seq<Row>, emptyText: Option<string>, refreshing: bool)

  function Rows(users: seq<Json>): (rows: seq<Row>)
    ensures |rows| == |users|
    ensures forall i :: 0 <= i < |users| ==> rows[i] == Row(DecimalString(i), RenderUser(users[i]))
  {
    seq(|users|, i requires 0 <= i < |users| => Row(DecimalString(i), RenderUser(users[i])))
  }

  function Render(users: seq<Json>, loading: bool, refreshing: bool): (s: Screen)
    ensures loading <==> s.Spinner?
    ensures s.Spinner? ==> s.caption == "Loading..."
    ensures s.Directory? ==>
      && s.countLabel == DecimalString(|users|) + " members"
      && s.rows == Rows(users)
      && s.title == "Users"
      && s.emptyText == (if users == [] then Some("No users found") else None)
      && s.refreshing == refreshing
  {
    if loading then Spinner("Loading...")
    else Directory("Users", DecimalString(|users|) + " members", Rows(users),
                   if |users| == 0 then Some("No users found") else None, refreshing)
  }

  /** Keys are distinct: no two rows of the list share a key. */
  lemma RowKeysDistinct(users: seq<Json>, i: nat, j: nat)
    requires i < |users| && j < |users| && i != j
    ensures Rows(users)[i].key != Rows(users)[j].key
  {
  }

  /** The header reports the size of the list: two lists shown with the
      same header have the same length. */
  lemma CountLabelIsSize(a: seq<Json>, b: seq<Json>, ra: bool, rb: bool)
    requires Render(a, false, ra).countLabel == Render(b, false, rb).countLabel
    ensures |a| == |b|
  {
    var sa, sb := DecimalString(|a|), DecimalString(|b|);
    var tail := " members";
    assert sa + tail == sb + tail;
    assert |sa| == |sb|;
    assert sa == (sa + tail)[..|sa|] == (sb + tail)[..|sb|] == sb;
    DecimalStringInjective(|a|, |b|);
  }

  // ---------------------------------------------------------------------
  // The screen's state

  /** The state hooks of the directory screen. `pending` counts the calls
      of fetchUsers that have started and not yet reached their finally
      block; they are not cancelled and may finish in any order. */
  class DirectoryScreen {
    var users: seq<Json>
    var loading: bool
    var refreshing: bool
    ghost var pending: nat

    /** Mounting: the initial hook values, and the effect that starts the
        first fetch. */
    constructor ()
      ensures Valid()
      ensures users == [] && loading && !refreshing && pending == 1
    {
      users, loading, refreshing := [], true, false;
      pending := 1;
    }

    /** What holds in every reachable state: `loading` is true only before
        the mount fetch settles, so while it is up there is no list yet, no
        refresh indicator and no other fetch in flight (the refresh control
        is only rendered once `loading` is false). */
    ghost predicate Valid()
      reads this
    {
      loading ==> users == [] && !refreshing && pending == 1
    }

    /** onRefresh, called by the pull-to-refresh control, which exists only
        once the spinner is gone: `refreshing` is raised and another fetch
        starts; the list is left alone until a fetch completes. */
    method OnRefresh()
      requires Valid() && !loading
      modifies this
      ensures Valid()
      ensures refreshing && users == old(users) && !loading
      ensures pending == old(pending) + 1
    {
      refreshing := true;
      pending := pending + 1;
    }

    /** fetchUsers after its awaits: `users` is replaced wholesale by the
        fetch's result, and both flags are lowered in the finally block. */
    method FetchCompleted(outcome: FetchOutcome)
      requires Valid() && pending > 0
      modifies this
      ensures Valid()
      ensures users == FetchResult(outcome)
      ensures !loading && !refreshing
      ensures pending == old(pending) - 1
    {
      match outcome {
        case Threw =>
          users := [];
        case Body(data) =>
          users := Normalise(data);
      }
      loading := false;
      refreshing := false;
      pending := pending - 1;
    }
  }

  /** Two pulls of the refresh control after the mount fetch has settled:
      the list is drawn with the refresh indicator up; the first of the two
      fetches to complete lowers it while the other is still out; and the
      list ends up as whichever response arrives last, not a merge. */
  method OverlappingRefreshes(mount: FetchOutcome, first: FetchOutcome, last: FetchOutcome)
    returns (indicatorShown: bool, loweredEarly: bool, users: seq<Json>)
    ensures indicatorShown && loweredEarly
    ensures users == FetchResult(last)
  {
    var screen := new DirectoryScreen();
    screen.FetchCompleted(mount);
    screen.OnRefresh();
    screen.OnRefresh();
    var shown := Render(screen.users, screen.loading, screen.refreshing);
    indicatorShown := shown.Directory? && shown.refreshing;
    screen.FetchCompleted(first);
    assert screen.pending == 1;
    loweredEarly := !screen.refreshing;
    screen.FetchCompleted(last);
    users := screen.users;
  }
}
