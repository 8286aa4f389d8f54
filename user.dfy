/**
 * The `user` slice of the client-side store: one profile record, changed only
 * by its fourteen reducers. `Profile` is a snapshot of `state.value`, `Reduce`
 * is the slice's reducer as a function of (state, action), and `UserState` is
 * the record itself, whose methods assign its fields in place as the reducers do.
 */
module User {
  import opened Js

  /** A snapshot of `state.value`. The scalar fields and the `address`, `artist`
      and `host` sub-records hold whatever payload was last stored, so they are
      JSON values; `medias` is an ordered list of media references. */
  datatype Profile<Media> = Profile(
    username: Value,
    email: Value,
    firstName: Value,
    lastName: Value,
    address: Value,
    phoneNumber: Value,
    birthDate: Value,
    artist: Value,
    host: Value,
    isArtist: Value,
    isHost: Value,
    medias: seq<Media>,
    token: Value)

  /** `initialState.value`. */
  function Initial<Media>(): Profile<Media> {
    Profile(
      username := Null,
      email := Null,
      firstName := Null,
      lastName := Null,
      address := Obj(map["street" := Null, "city" := Null, "zipCode" := Null]),
      phoneNumber := Null,
      birthDate := Null,
      artist := Obj(map["artistName" := Null, "member" := Num(0), "placeOrigin" := Null, "genres" := Arr([])]),
      host := Obj(map["description" := Null, "favoritesGenres" := Arr([])]),
      isArtist := Bool(false),
      isHost := Bool(false),
      medias := [],
      token := Null)
  }

  /** The names of the fields of the profile record. */
  datatype Field =
    | Username | Email | FirstName | LastName | Address | PhoneNumber | BirthDate
    | Artist | Host | IsArtist | IsHost | Medias | Token

  /** What a field holds: a JSON value, or the media list. */
  datatype Slot<Media> = Scalar(v: Value) | List(items: seq<Media>)

  function Read<Media>(p: Profile<Media>, f: Field): Slot<Media> {
    match f
    case Username => Scalar(p.username)
    case Email => Scalar(p.email)
    case FirstName => Scalar(p.firstName)
    case LastName => Scalar(p.lastName)
    case Address => Scalar(p.address)
    case PhoneNumber => Scalar(p.phoneNumber)
    case BirthDate => Scalar(p.birthDate)
    case Artist => Scalar(p.artist)
    case Host => Scalar(p.host)
    case IsArtist => Scalar(p.isArtist)
    case IsHost => Scalar(p.isHost)
    case Medias => List(p.medias)
    case Token => Scalar(p.token)
  }

  /** Two profiles that agree on every field are the same profile. */
  lemma ReadExtensional<Media>(p: Profile<Media>, q: Profile<Media>)
    requires forall f :: Read(p, f) == Read(q, f)
    ensures p == q
  {
    assert Read(p, Username) == Read(q, Username);
    assert Read(p, Email) == Read(q, Email);
    assert Read(p, FirstName) == Read(q, FirstName);
    assert Read(p, LastName) == Read(q, LastName);
    assert Read(p, Address) == Read(q, Address);
    assert Read(p, PhoneNumber) == Read(q, PhoneNumber);
    assert Read(p, BirthDate) == Read(q, BirthDate);
    assert Read(p, Artist) == Read(q, Artist);
    assert Read(p, Host) == Read(q, Host);
    assert Read(p, IsArtist) == Read(q, IsArtist);
    assert Read(p, IsHost) == Read(q, IsHost);
    assert Read(p, Medias) == Read(q, Medias);
    assert Read(p, Token) == Read(q, Token);
  }

  /** The slice's actions, one per reducer, with their payloads. */
  datatype Action<Media> =
    | UpdateUsername(payload: Value)
    | UpdateEmail(payload: Value)
    | UpdateFirstName(payload: Value)
    | UpdateLastName(payload: Value)
    | UpdateAddress(payload: Value)
    | UpdatePhoneNumber(payload: Value)
    | GetArtistInfos(payload: Value)
    | GetHostInfos(payload: Value)
    | UpdateBirthDate(payload: Value)
    | UpdateToken(payload: Value)
    | UpdateArtist(payload: Value)
    | UpdateHost(payload: Value)
    | AddMedia(media: Media)
    | RemoveMedia(media: Media)
  {
    /** Every action but the two media actions overwrites one field with its payload. */
    predicate IsSetter() {
      !AddMedia? && !RemoveMedia?
    }
  }

  /** The one field an action writes. */
  function Target<Media>(a: Action<Media>): Field {
    match a
    case UpdateUsername(_) => Username
    case UpdateEmail(_) => Email
    case UpdateFirstName(_) => FirstName
    case UpdateLastName(_) => LastName
    case UpdateAddress(_) => Address
    case UpdatePhoneNumber(_) => PhoneNumber
    case GetArtistInfos(_) => Artist
    case GetHostInfos(_) => Host
    case UpdateBirthDate(_) => BirthDate
    case UpdateToken(_) => Token
    case UpdateArtist(_) => IsArtist
    case UpdateHost(_) => IsHost
    case AddMedia(_) => Medias
    case RemoveMedia(_) => Medias
  }

  /** `medias.filter(e => e !== x)`: the list without any element equal to `x`. */
  function Without<Media(==)>(s: seq<Media>, x: Media): (r: seq<Media>)
    ensures x !in r
    ensures |r| == |s| - multiset(s)[x]
  {
    if s == [] then []
    else
      assert s == [s[0]] + s[1..];
      if s[0] == x then Without(s[1..], x) else [s[0]] + Without(s[1..], x)
  }

  /** The slice reducer: the state after one action. */
  function Reduce<Media(==)>(p: Profile<Media>, a: Action<Media>): Profile<Media> {
    match a
    case UpdateUsername(v) => p.(username := v)
    case UpdateEmail(v) => p.(email := v)
    case UpdateFirstName(v) => p.(firstName := v)
    case UpdateLastName(v) => p.(lastName := v)
    case UpdateAddress(v) => p.(address := v)
    case UpdatePhoneNumber(v) => p.(phoneNumber := v)
    case GetArtistInfos(v) => p.(artist := v)
    case GetHostInfos(v) => p.(host := v)
    case UpdateBirthDate(v) => p.(birthDate := v)
    case UpdateToken(v) => p.(token := v)
    case UpdateArtist(v) => p.(isArtist := v)
    case UpdateHost(v) => p.(isHost := v)
    case AddMedia(m) => p.(medias := p.medias + [m])
    case RemoveMedia(m) => p.(medias := Without(p.medias, m))
  }

  /** A setter stores its payload in its target field; `addMedia` appends to
      the media list and `removeMedia` filters it. */
  lemma ReduceWrites<Media>(p: Profile<Media>, a: Action<Media>)
    ensures a.IsSetter() ==> Read(Reduce(p, a), Target(a)) == Scalar(a.payload)
    ensures a.AddMedia? ==> Read(Reduce(p, a), Medias) == List(p.medias + [a.media])
    ensures a.RemoveMedia? ==> Read(Reduce(p, a), Medias) == List(Without(p.medias, a.media))
  {
  }

  /** An action leaves every field other than its target as it was. */
  lemma ReduceFrame<Media>(p: Profile<Media>, a: Action<Media>, f: Field)
    requires f != Target(a)
    ensures Read(Reduce(p, a), f) == Read(p, f)
  {
  }

  /** The state after a sequence of actions dispatched in order. */
  function Run<Media(==)>(p: Profile<Media>, acts: seq<Action<Media>>): Profile<Media>
    decreases |acts|
  {
    if acts == [] then p else Run(Reduce(p, acts[0]), acts[1..])
  }

  // ---------------------------------------------------------------------------
  // Dispatching in sequence

  /** Dispatching `a` then `b` is dispatching `a + b`. */
  lemma {:induction false} RunConcat<Media>(p: Profile<Media>, a: seq<Action<Media>>, b: seq<Action<Media>>)
    ensures Run(p, a + b) == Run(Run(p, a), b)
    decreases |a|
  {
    if a == [] {
      assert a + b == b;
    } else {
      assert (a + b)[0] == a[0];
      assert (a + b)[1..] == a[1..] + b;
      RunConcat(Reduce(p, a[0]), a[1..], b);
    }
  }

  /** Dispatching one more action applies the reducer to the state reached so far. */
  lemma RunSnoc<Media>(p: Profile<Media>, acts: seq<Action<Media>>, a: Action<Media>)
    ensures Run(p, acts + [a]) == Reduce(Run(p, acts), a)
  {
    RunConcat(p, acts, [a]);
    assert [a][1..] == [];
  }

  /** Running a suffix of a sequence takes one action at a time. */
  lemma RunFrom<Media>(p: Profile<Media>, acts: seq<Action<Media>>, k: nat)
    requires k < |acts|
    ensures Run(p, acts[k..]) == Run(Reduce(p, acts[k]), acts[k + 1..])
  {
    assert acts[k..][1..] == acts[k + 1..];
  }

  /** Running a suffix of a sequence, three actions at a time. */
  lemma RunFromThree<Media>(p: Profile<Media>, acts: seq<Action<Media>>, k: nat)
    requires k + 3 <= |acts|
    ensures Run(p, acts[k..]) == Run(Reduce(Reduce(Reduce(p, acts[k]), acts[k + 1]), acts[k + 2]), acts[k + 3..])
  {
    RunFrom(p, acts, k);
    RunFrom(Reduce(p, acts[k]), acts, k + 1);
    RunFrom(Reduce(Reduce(p, acts[k]), acts[k + 1]), acts, k + 2);
  }

  /** A field that no action in the sequence targets keeps its value. */
  lemma {:induction false} RunUntargeted<Media>(p: Profile<Media>, acts: seq<Action<Media>>, f: Field)
    requires forall i :: 0 <= i < |acts| ==> Target(acts[i]) != f
    ensures Read(Run(p, acts), f) == Read(p, f)
    decreases |acts|
  {
    if acts != [] {
      ReduceFrame(p, acts[0], f);
      RunUntargeted(Reduce(p, acts[0]), acts[1..], f);
    }
  }

  /** Last write wins: after a sequence, a setter's field holds its payload
      unless a later action in the sequence targets the same field. */
  lemma RunLastWriteWins<Media>(p: Profile<Media>, acts: seq<Action<Media>>, i: nat)
    requires i < |acts| && acts[i].IsSetter()
    requires forall j :: i < j < |acts| ==> Target(acts[j]) != Target(acts[i])
    ensures Read(Run(p, acts), Target(acts[i])) == Scalar(acts[i].payload)
  {
    var before, after := acts[..i], acts[i + 1..];
    assert acts == before + [acts[i]] + after;
    RunConcat(p, before + [acts[i]], after);
    RunSnoc(p, before, acts[i]);
    forall j | 0 <= j < |after| ensures Target(after[j]) != Target(acts[i]) {
      assert after[j] == acts[i + 1 + j];
    }
    RunUntargeted(Run(p, before + [acts[i]]), after, Target(acts[i]));
    ReduceWrites(Run(p, before), acts[i]);
  }

  // ---------------------------------------------------------------------------
  // The setters

  /** A setter is idempotent. */
  lemma SetterIdempotent<Media>(p: Profile<Media>, a: Action<Media>)
    requires a.IsSetter()
    ensures Reduce(Reduce(p, a), a) == Reduce(p, a)
  {
    var q, r := Reduce(p, a), Reduce(Reduce(p, a), a);
    forall f ensures Read(r, f) == Read(q, f) {
    }
    ReadExtensional(r, q);
  }

  /** Two setters of the same field: the second one wins and the first leaves no trace. */
  lemma SetterOverwrites<Media>(p: Profile<Media>, a: Action<Media>, b: Action<Media>)
    requires a.IsSetter() && b.IsSetter() && Target(a) == Target(b)
    ensures Reduce(Reduce(p, a), b) == Reduce(p, b)
  {
    var q, r := Reduce(p, b), Reduce(Reduce(p, a), b);
    forall f ensures Read(r, f) == Read(q, f) {
    }
    ReadExtensional(r, q);
  }

  /** `getArtistInfos` replaces the whole `artist` sub-record: the old sub-record
      has no influence on the result (no merge of old sub-fields). */
  lemma ArtistInfosReplaceWhole<Media>(p: Profile<Media>, old1: Value, old2: Value, v: Value)
    ensures Reduce(p.(artist := old1), GetArtistInfos(v)) == Reduce(p.(artist := old2), GetArtistInfos(v))
    ensures Reduce(p, GetArtistInfos(v)).artist == v
  {
  }

  /** `getHostInfos` replaces the whole `host` sub-record in the same way. */
  lemma HostInfosReplaceWhole<Media>(p: Profile<Media>, old1: Value, old2: Value, v: Value)
    ensures Reduce(p.(host := old1), GetHostInfos(v)) == Reduce(p.(host := old2), GetHostInfos(v))
    ensures Reduce(p, GetHostInfos(v)).host == v
  {
  }

  /** `updateArtist` and `updateHost` are independent of each other and of the
      sub-records: setting a flag changes neither the other flag nor any sub-record. */
  lemma FlagsIndependent<Media>(p: Profile<Media>, v: Value)
    ensures var q := Reduce(p, UpdateArtist(v));
      q.isArtist == v && q.isHost == p.isHost && q.artist == p.artist && q.host == p.host
    ensures var q := Reduce(p, UpdateHost(v));
      q.isHost == v && q.isArtist == p.isArtist && q.artist == p.artist && q.host == p.host
  {
  }

  /** No reducer keeps the flags and the sub-records consistent: from the initial
      state, `updateArtist(true)` yields an artist whose sub-record is still the
      empty one. */
  lemma FlagWithoutSubRecord<Media>()
    ensures var q := Run(Initial<Media>(), [UpdateArtist(Bool(true))]);
      q.isArtist == Bool(true) && q.artist == Initial<Media>().artist
  {
    var acts: seq<Action<Media>> := [UpdateArtist(Bool(true))];
    assert acts[1..] == [];
  }

  // ---------------------------------------------------------------------------
  // The media list

  /** The filter distributes over concatenation, so the kept elements stay in
      their relative order. */
  lemma {:induction false} WithoutConcat<Media>(a: seq<Media>, b: seq<Media>, x: Media)
    ensures Without(a + b, x) == Without(a, x) + Without(b, x)
    decreases |a|
  {
    if a == [] {
      assert a + b == b;
    } else {
      assert (a + b)[0] == a[0];
      assert (a + b)[1..] == a[1..] + b;
      WithoutConcat(a[1..], b, x);
    }
  }

  /** Exactly the elements other than `x` survive the filter. */
  lemma {:induction false} WithoutMembers<Media>(s: seq<Media>, x: Media, y: Media)
    ensures y in Without(s, x) <==> y in s && y != x
    decreases |s|
  {
    if s != [] {
      WithoutMembers(s[1..], x, y);
      assert s == [s[0]] + s[1..];
    }
  }

  /** On a one-element list the filter keeps the element iff it differs from `x`. */
  lemma WithoutSingleton<Media>(y: Media, x: Media)
    ensures Without([y], x) == if y == x then [] else [y]
  {
    assert [y][1..] == [];
  }

  /** Every element other than `x` keeps its number of occurrences. */
  lemma {:induction false} WithoutCount<Media>(s: seq<Media>, x: Media, y: Media)
    ensures multiset(Without(s, x))[y] == if y == x then 0 else multiset(s)[y]
    decreases |s|
  {
    if s != [] {
      assert s == [s[0]] + s[1..];
      WithoutCount(s[1..], x, y);
    }
  }

  /** Filtering twice is filtering once. */
  lemma {:induction false} WithoutIdempotent<Media>(s: seq<Media>, x: Media)
    ensures Without(Without(s, x), x) == Without(s, x)
    decreases |s|
  {
    if s != [] {
      WithoutIdempotent(s[1..], x);
      if s[0] != x {
        var rest := Without(s[1..], x);
        assert ([s[0]] + rest)[0] == s[0];
        assert ([s[0]] + rest)[1..] == rest;
      }
    }
  }

  /** The filter leaves the list unchanged exactly when `x` is absent. */
  lemma {:induction false} WithoutUnchangedIffAbsent<Media>(s: seq<Media>, x: Media)
    ensures Without(s, x) == s <==> x !in s
    decreases |s|
  {
    if s != [] {
      WithoutUnchangedIffAbsent(s[1..], x);
      assert s == [s[0]] + s[1..];
    }
  }

  /** `removeMedia` is idempotent and never makes the list longer. */
  lemma RemoveMediaIdempotent<Media>(p: Profile<Media>, m: Media)
    ensures Reduce(Reduce(p, RemoveMedia(m)), RemoveMedia(m)) == Reduce(p, RemoveMedia(m))
    ensures |Reduce(p, RemoveMedia(m)).medias| <= |p.medias|
  {
    WithoutIdempotent(p.medias, m);
  }

  /** `removeMedia` is a no-op exactly when the media is absent. */
  lemma RemoveMediaNoOpIffAbsent<Media>(p: Profile<Media>, m: Media)
    ensures Reduce(p, RemoveMedia(m)) == p <==> m !in p.medias
  {
    WithoutUnchangedIffAbsent(p.medias, m);
    var q := Reduce(p, RemoveMedia(m));
    assert q == p.(medias := Without(p.medias, m));
    if m in p.medias {
      assert q.medias != p.medias;
    }
  }

  /** `addMedia(m)` then `removeMedia(m)` removes every copy of `m`, so it
      restores the previous state exactly when `m` was not already present. */
  lemma AddThenRemoveMedia<Media>(p: Profile<Media>, m: Media)
    ensures Reduce(Reduce(p, AddMedia(m)), RemoveMedia(m)).medias == Without(p.medias, m)
    ensures Reduce(Reduce(p, AddMedia(m)), RemoveMedia(m)) == p <==> m !in p.medias
  {
    var added := Reduce(p, AddMedia(m));
    assert added == p.(medias := p.medias + [m]);
    var removed := Reduce(added, RemoveMedia(m));
    WithoutConcat(p.medias, [m], m);
    WithoutSingleton(m, m);
    assert Without(p.medias + [m], m) == Without(p.medias, m) + [];
    assert removed == p.(medias := Without(p.medias, m));
    WithoutUnchangedIffAbsent(p.medias, m);
    assert removed == p <==> removed.medias == p.medias;
  }

  // ---------------------------------------------------------------------------
  // The record, updated in place

  /** `state.value`, whose fields the reducers assign in place. */
  class UserState<Media(==)> {
    var username: Value
    var email: Value
    var firstName: Value
    var lastName: Value
    var address: Value
    var phoneNumber: Value
    var birthDate: Value
    var artist: Value
    var host: Value
    var isArtist: Value
    var isHost: Value
    var medias: seq<Media>
    var token: Value

    /** The record's current contents. */
    function Snapshot(): Profile<Media>
      reads this
    {
      Profile(username, email, firstName, lastName, address, phoneNumber, birthDate,
              artist, host, isArtist, isHost, medias, token)
    }

    /** The store as created from `initialState`: every scalar field null, the
        sub-records with null leaves, `member` 0, empty genre lists, both flags
        false and no media. */
    constructor ()
      ensures Snapshot() == Initial()
      ensures username == email == firstName == lastName == phoneNumber == birthDate == token == Null
      ensures Prop(address, "street") == Prop(address, "city") == Prop(address, "zipCode") == Null
      ensures Prop(artist, "member") == Num(0) && Prop(artist, "genres") == Arr([])
      ensures Prop(host, "favoritesGenres") == Arr([])
      ensures isArtist == isHost == Bool(false) && medias == []
    {
      var init := Initial<Media>();
      username, email, firstName, lastName := init.username, init.email, init.firstName, init.lastName;
      address, phoneNumber, birthDate := init.address, init.phoneNumber, init.birthDate;
      artist, host, isArtist, isHost := init.artist, init.host, init.isArtist, init.isHost;
      medias, token := init.medias, init.token;
    }

    method UpdateUsername(v: Value)
      modifies this`username
      ensures Snapshot() == old(Snapshot()).(username := v)
    {
      username := v;
    }

    method UpdateEmail(v: Value)
      modifies this`email
      ensures Snapshot() == old(Snapshot()).(email := v)
    {
      email := v;
    }

    method UpdateFirstName(v: Value)
      modifies this`firstName
      ensures Snapshot() == old(Snapshot()).(firstName := v)
    {
      firstName := v;
    }

    method UpdateLastName(v: Value)
      modifies this`lastName
      ensures Snapshot() == old(Snapshot()).(lastName := v)
    {
      lastName := v;
    }

    method UpdateAddress(v: Value)
      modifies this`address
      ensures Snapshot() == old(Snapshot()).(address := v)
    {
      address := v;
    }

    method UpdatePhoneNumber(v: Value)
      modifies this`phoneNumber
      ensures Snapshot() == old(Snapshot()).(phoneNumber := v)
    {
      phoneNumber := v;
    }

    method GetArtistInfos(v: Value)
      modifies this`artist
      ensures Snapshot() == old(Snapshot()).(artist := v)
    {
      artist := v;
    }

    method GetHostInfos(v: Value)
      modifies this`host
      ensures Snapshot() == old(Snapshot()).(host := v)
    {
      host := v;
    }

    method UpdateBirthDate(v: Value)
      modifies this`birthDate
      ensures Snapshot() == old(Snapshot()).(birthDate := v)
    {
      birthDate := v;
    }

    method UpdateToken(v: Value)
      modifies this`token
      ensures Snapshot() == old(Snapshot()).(token := v)
    {
      token := v;
    }

    method UpdateArtist(v: Value)
      modifies this`isArtist
      ensures Snapshot() == old(Snapshot()).(isArtist := v)
    {
      isArtist := v;
    }

    method UpdateHost(v: Value)
      modifies this`isHost
      ensures Snapshot() == old(Snapshot()).(isHost := v)
    {
      isHost := v;
    }

    /** `medias.push(m)`. */
    method AddMedia(m: Media)
      modifies this`medias
      ensures medias == old(medias) + [m]
      ensures |medias| == |old(medias)| + 1 && medias[|medias| - 1] == m
      ensures Snapshot() == old(Snapshot()).(medias := old(medias) + [m])
    {
      medias := medias + [m];
    }

    /** `medias = medias.filter(e => e !== m)`. */
    method RemoveMedia(m: Media)
      modifies this`medias
      ensures m !in medias && |medias| <= |old(medias)|
      ensures Snapshot() == old(Snapshot()).(medias := Without(old(medias), m))
    {
      medias := Without(medias, m);
    }

    /** `dispatch(action)`: the slice reducer run on the record. */
    method Dispatch(a: Action<Media>)
      modifies this
      ensures Snapshot() == Reduce(old(Snapshot()), a)
    {
      match a
      case UpdateUsername(v) => this.UpdateUsername(v);
      case UpdateEmail(v) => this.UpdateEmail(v);
      case UpdateFirstName(v) => this.UpdateFirstName(v);
      case UpdateLastName(v) => this.UpdateLastName(v);
      case UpdateAddress(v) => this.UpdateAddress(v);
      case UpdatePhoneNumber(v) => this.UpdatePhoneNumber(v);
      case GetArtistInfos(v) => this.GetArtistInfos(v);
      case GetHostInfos(v) => this.GetHostInfos(v);
      case UpdateBirthDate(v) => this.UpdateBirthDate(v);
      case UpdateToken(v) => this.UpdateToken(v);
      case UpdateArtist(v) => this.UpdateArtist(v);
      case UpdateHost(v) => this.UpdateHost(v);
      case AddMedia(m) => this.AddMedia(m);
      case RemoveMedia(m) => this.RemoveMedia(m);
    }
  }
}
