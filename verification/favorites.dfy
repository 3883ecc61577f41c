/**
 * The favorites controller of the REST API
 * (`packages/rest-api/src/server/favorite/favorite.controller.ts`): a
 * user's favorite tracks are a list held on the user document, edited in
 * place by the request handlers.
 *
 * The authenticated user (`req.user`) is a nullable `User`, the favorite
 * preloaded by `load` (`req.favorite`) an `Option`. A JavaScript id is
 * truthy when it is not empty. Saving the document, and the reply that
 * follows it, is the `SavedUser` reply; the id a new favorite gets is a
 * parameter.
 */
module Favorites {
  import opened Wrappers

  /** A favorite track. */
  datatype Favorite = Favorite(
    id: string,
    provider: string,
    url: string,
    title: string,
    description: string,
    views: string,
    thumbnailURL: string,
    duration: string)

  /** The validated request body of `create` and `update`: the seven fields of a favorite, without its id. */
  datatype FavoriteBody = FavoriteBody(
    provider: string,
    url: string,
    title: string,
    description: string,
    views: string,
    thumbnailURL: string,
    duration: string)

  const NotFound: nat := 404
  const BadRequest: nat := 400

  /** What a handler answers. */
  datatype Reply =
    | SavedUser                       // the user document is saved and sent back
    | FavoriteJson(favorite: Favorite)
    | StatusOnly(code: nat)           // `res.sendStatus(code)`
    | NumberJson(n: nat)              // `res.json(code)`: a 200 response whose body is the number

  /** What `load` leaves for the next handler; with no user, `next` is given an error. */
  datatype LoadResult = NoUser | Loaded(favorite: Option<Favorite>)

  /** `favorites.findIndex(fav => fav._id === id)`. */
  function IndexOfId(favorites: seq<Favorite>, id: string): (i: int)
    ensures -1 <= i < |favorites|
    ensures i == -1 <==> forall j :: 0 <= j < |favorites| ==> favorites[j].id != id
    ensures i >= 0 ==> favorites[i].id == id && forall j :: 0 <= j < i ==> favorites[j].id != id
    decreases |favorites|
  {
    if favorites == [] then -1
    else if favorites[0].id == id then 0
    else
      var i := IndexOfId(favorites[1..], id);
      assert forall j :: 0 < j < |favorites| ==> favorites[j] == favorites[1..][j - 1];
      if i == -1 then -1 else i + 1
  }

  /** `favorites.find(fav => fav._id === id)`. */
  function FindById(favorites: seq<Favorite>, id: string): (r: Option<Favorite>)
    ensures r.None? <==> IndexOfId(favorites, id) == -1
    ensures r.Some? ==> r == Some(favorites[IndexOfId(favorites, id)])
  {
    var i := IndexOfId(favorites, id);
    if i == -1 then None else Some(favorites[i])
  }

  /** Whether some favorite already has this url (`favorites.find(fav => fav.url === url)`). */
  predicate HasUrl(favorites: seq<Favorite>, url: string) {
    exists j :: 0 <= j < |favorites| && favorites[j].url == url
  }

  /** No two favorites share a url. */
  predicate UrlsDistinct(favorites: seq<Favorite>) {
    forall i, j :: 0 <= i < j < |favorites| ==> favorites[i].url != favorites[j].url
  }

  /** The new favorite of `create`: the fresh id and the body's fields. */
  function NewFavorite(id: string, body: FavoriteBody): Favorite {
    Favorite(id, body.provider, body.url, body.title, body.description, body.views, body.thumbnailURL, body.duration)
  }

  /** `favorite` with the seven fields of `update` overwritten from the body; the id stays. */
  function Updated(favorite: Favorite, body: FavoriteBody): (r: Favorite)
    ensures r.id == favorite.id
    ensures r == NewFavorite(favorite.id, body)
  {
    favorite.(description := body.description, duration := body.duration, provider := body.provider,
              thumbnailURL := body.thumbnailURL, title := body.title, url := body.url, views := body.views)
  }

  /** The list after `create`: the new favorite appended, or `None` (a 400) when its url is already there. */
  function WithFavoriteCreated(favorites: seq<Favorite>, id: string, body: FavoriteBody): (r: Option<seq<Favorite>>)
    ensures r.None? <==> HasUrl(favorites, body.url)
    ensures r.Some? ==> (|r.value| == |favorites| + 1 && r.value[..|favorites|] == favorites &&
      r.value[|favorites|] == NewFavorite(id, body))
  {
    if HasUrl(favorites, body.url) then None
    else
      var r := favorites + [NewFavorite(id, body)];
      assert r[..|favorites|] == favorites;
      Some(r)
  }

  /** `create` keeps urls unique: a list without duplicates stays without duplicates. */
  lemma CreateKeepsUrlsDistinct(favorites: seq<Favorite>, id: string, body: FavoriteBody)
    requires UrlsDistinct(favorites)
    requires WithFavoriteCreated(favorites, id, body).Some?
    ensures UrlsDistinct(WithFavoriteCreated(favorites, id, body).value)
  {
    var r := WithFavoriteCreated(favorites, id, body).value;
    forall i, j | 0 <= i < j < |r|
      ensures r[i].url != r[j].url
    {
      assert r[i] == favorites[i];
      if j < |favorites| {
        assert r[j] == favorites[j];
      } else {
        assert r[j].url == body.url;
        assert !(0 <= i < |favorites| && favorites[i].url == body.url);
      }
    }
  }

  /** The list after `update`: the first favorite with the loaded favorite's id replaced, or `None` (a 404). */
  function WithFavoriteUpdated(favorites: seq<Favorite>, favorite: Favorite, body: FavoriteBody): (r: Option<seq<Favorite>>)
    ensures r.None? <==> forall j :: 0 <= j < |favorites| ==> favorites[j].id != favorite.id
    ensures r.Some? ==> (|r.value| == |favorites| &&
      var i := IndexOfId(favorites, favorite.id);
      r.value[i] == Updated(favorite, body) &&
      forall j :: 0 <= j < |favorites| && j != i ==> r.value[j] == favorites[j])
  {
    var i := IndexOfId(favorites, favorite.id);
    if i == -1 then None else Some(favorites[i := Updated(favorite, body)])
  }

  /** Nothing stops `update` from giving a favorite the url of another one. */
  lemma UpdateMayDuplicateUrl()
    ensures var a := Favorite("a", "youtube", "u1", "", "", "", "", "");
      var b := Favorite("b", "youtube", "u2", "", "", "", "", "");
      var r := WithFavoriteUpdated([a, b], b, FavoriteBody("youtube", "u1", "", "", "", "", ""));
      UrlsDistinct([a, b]) && r.Some? && !UrlsDistinct(r.value)
  {
    var a := Favorite("a", "youtube", "u1", "", "", "", "", "");
    var b := Favorite("b", "youtube", "u2", "", "", "", "", "");
    assert IndexOfId([a, b], "b") == 1 by {
      assert [a, b][1..] == [b];
    }
  }

  /** The list after `remove`: the first favorite with the loaded favorite's id spliced out, or `None` (a 404). */
  function WithFavoriteRemoved(favorites: seq<Favorite>, favorite: Favorite): (r: Option<seq<Favorite>>)
    ensures r.None? <==> forall j :: 0 <= j < |favorites| ==> favorites[j].id != favorite.id
    ensures r.Some? ==> (|r.value| == |favorites| - 1 &&
      var i := IndexOfId(favorites, favorite.id);
      r.value == favorites[..i] + favorites[i + 1..] &&
      multiset(r.value) + multiset{favorites[i]} == multiset(favorites))
  {
    var i := IndexOfId(favorites, favorite.id);
    if i == -1 then None
    else
      assert favorites == favorites[..i] + [favorites[i]] + favorites[i + 1..];
      Some(favorites[..i] + favorites[i + 1..])
  }

  /**
   * A favorite `load` found is found again by `update` and `remove`, at the
   * index it sits at: both succeed, and `remove` takes that very favorite out.
   */
  lemma LoadedFavoriteIsEdited(favorites: seq<Favorite>, id: string, body: FavoriteBody)
    requires FindById(favorites, id).Some?
    ensures var f := FindById(favorites, id).value;
      f.id == id &&
      WithFavoriteUpdated(favorites, f, body).Some? &&
      WithFavoriteRemoved(favorites, f).Some? &&
      multiset(WithFavoriteRemoved(favorites, f).value) + multiset{f} == multiset(favorites)
  {
  }

  /** A user document. */
  class User {
    const id: string
    var favorites: seq<Favorite>

    constructor (id: string, favorites: seq<Favorite>)
      ensures this.id == id && this.favorites == favorites
    {
      this.id := id;
      this.favorites := favorites;
    }
  }

  /** `req.user && req.user._id`. */
  predicate HasUser(user: User?) {
    user != null && user.id != ""
  }

  /** `req.favorite && req.favorite._id`. */
  predicate HasFavorite(favorite: Option<Favorite>) {
    favorite.Some? && favorite.value.id != ""
  }

  /** `load`: the user's first favorite with the requested id, when there is a user. */
  function Load(user: User?, id: string): (r: LoadResult)
    reads user
    ensures r == NoUser <==> !HasUser(user)
    ensures r.Loaded? ==> r.favorite == FindById(user.favorites, id)
    ensures r.Loaded? && r.favorite.Some? ==> r.favorite.value.id == id && r.favorite.value in user.favorites
  {
    if HasUser(user) then Loaded(FindById(user.favorites, id)) else NoUser
  }

  /** `get`: the loaded favorite, or the number 404 as a JSON body. */
  function Get(favorite: Option<Favorite>): (r: Reply)
    ensures r.FavoriteJson? <==> HasFavorite(favorite)
    ensures r.FavoriteJson? ==> r.favorite == favorite.value
    ensures !r.FavoriteJson? ==> r == NumberJson(NotFound)
  {
    if HasFavorite(favorite) then FavoriteJson(favorite.value) else NumberJson(NotFound)
  }

  /** `create`. */
  method Create(user: User?, newId: string, body: FavoriteBody) returns (reply: Reply)
    modifies user
    ensures !HasUser(user) ==> reply == StatusOnly(NotFound)
    ensures HasUser(user) ==>
      match WithFavoriteCreated(old(user.favorites), newId, body)
      case None => reply == StatusOnly(BadRequest) && user.favorites == old(user.favorites)
      case Some(favorites) => reply == SavedUser && user.favorites == favorites
  {
    if user == null || user.id == "" {
      return StatusOnly(NotFound);
    }
    var favorite := NewFavorite(newId, body);
    var i := 0;
    while i < |user.favorites| && user.favorites[i].url != favorite.url
      invariant 0 <= i <= |user.favorites|
      invariant forall j :: 0 <= j < i ==> user.favorites[j].url != favorite.url
    {
      i := i + 1;
    }
    if i == |user.favorites| {
      user.favorites := user.favorites + [favorite];
      reply := SavedUser;
    } else {
      reply := StatusOnly(BadRequest);
    }
  }

  /** `update`: the loaded favorite's fields are overwritten and it is put back at its index. */
  method Update(user: User?, favorite: Option<Favorite>, body: FavoriteBody) returns (reply: Reply)
    modifies user
    ensures !(HasUser(user) && HasFavorite(favorite)) ==> reply == StatusOnly(NotFound)
    ensures HasUser(user) && HasFavorite(favorite) ==>
      match WithFavoriteUpdated(old(user.favorites), favorite.value, body)
      case None => reply == StatusOnly(NotFound) && user.favorites == old(user.favorites)
      case Some(favorites) => reply == SavedUser && user.favorites == favorites
  {
    if !(user != null && user.id != "" && favorite.Some? && favorite.value.id != "") {
      return StatusOnly(NotFound);
    }
    var updated := Updated(favorite.value, body);
    var index := IndexOfId(user.favorites, updated.id);
    if index == -1 {
      return StatusOnly(NotFound);
    }
    user.favorites := user.favorites[index := updated];
    reply := SavedUser;
  }

  /** `remove`: the loaded favorite is spliced out of the list. */
  method Remove(user: User?, favorite: Option<Favorite>) returns (reply: Reply)
    modifies user
    ensures !(HasUser(user) && HasFavorite(favorite)) ==> reply == NumberJson(NotFound)
    ensures HasUser(user) && HasFavorite(favorite) ==>
      match WithFavoriteRemoved(old(user.favorites), favorite.value)
      case None => reply == StatusOnly(NotFound) && user.favorites == old(user.favorites)
      case Some(favorites) => reply == SavedUser && user.favorites == favorites
  {
    if !(user != null && user.id != "" && favorite.Some? && favorite.value.id != "") {
      return NumberJson(NotFound);
    }
    var index := IndexOfId(user.favorites, favorite.value.id);
    if index == -1 {
      return StatusOnly(NotFound);
    }
    user.favorites := user.favorites[..index] + user.favorites[index + 1..];
    reply := SavedUser;
  }
}
