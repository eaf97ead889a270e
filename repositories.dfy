/** The in-memory repositories the API server wires into the service: two maps
    keyed by ID, updated in place. Go's map iteration order is unspecified, and
    so is the order in which the loops below visit the keys. */
module Repositories {
  import opened Models

  class InMemorySpeedTestRepo {
    var results: map<string, SpeedTestResult>

    /** Every stored result sits under its own ID, since SaveResult keys the
        map by `result.ID`. */
    ghost predicate Valid()
      reads this
    {
      forall id :: id in results ==> results[id].id == id
    }

    constructor ()
      ensures Valid() && results == map[]
    {
      results := map[];
    }

    /** Stores `result` under its ID; a result already stored under that ID
        is replaced (last write wins). Never fails. */
    method SaveResult(result: SpeedTestResult) returns (err: Option<Error>)
      requires Valid()
      modifies this
      ensures Valid()
      ensures results == old(results)[result.id := result]
      ensures err == None
    {
      results := results[result.id := result];
      err := None;
    }

    /** Every stored result of `userID`, each exactly once, in map order. */
    method GetResultsByUserID(userID: string) returns (userResults: seq<SpeedTestResult>, err: Option<Error>)
      requires Valid()
      ensures err == None
      ensures forall i :: 0 <= i < |userResults| ==>
        userResults[i].userID == userID && userResults[i].id in results && results[userResults[i].id] == userResults[i]
      ensures forall id :: id in results && results[id].userID == userID ==> results[id] in userResults
      ensures forall i, j :: 0 <= i < j < |userResults| ==> userResults[i].id != userResults[j].id
    {
      userResults := [];
      var unvisited := results.Keys;
      while unvisited != {}
        invariant unvisited <= results.Keys
        invariant forall i :: 0 <= i < |userResults| ==>
          userResults[i].userID == userID && userResults[i].id in results && userResults[i].id !in unvisited
          && results[userResults[i].id] == userResults[i]
        invariant forall id :: id in results && id !in unvisited && results[id].userID == userID ==> results[id] in userResults
        invariant forall i, j :: 0 <= i < j < |userResults| ==> userResults[i].id != userResults[j].id
        decreases unvisited
      {
        var id :| id in unvisited;
        var result := results[id];
        if result.userID == userID {
          userResults := userResults + [result];
        }
        unvisited := unvisited - {id};
      }
      err := None;
    }

    method GetResultByID(id: string) returns (r: Result<SpeedTestResult>)
      ensures id in results ==> r == Ok(results[id])
      ensures id !in results ==> r == Err(ResultNotFound)
    {
      if id !in results {
        return Err(ResultNotFound);
      }
      r := Ok(results[id]);
    }

    /** Removes the entry for `id`, if any. Never fails. */
    method DeleteResult(id: string) returns (err: Option<Error>)
      requires Valid()
      modifies this
      ensures Valid()
      ensures results == old(results) - {id}
      ensures err == None
    {
      results := results - {id};
      err := None;
    }
  }

  class InMemoryUserRepo {
    var users: map<string, UserProfile>

    /** Every stored profile sits under its own ID, since SaveUser keys the
        map by `user.ID`. */
    ghost predicate Valid()
      reads this
    {
      forall id :: id in users ==> users[id].id == id
    }

    constructor ()
      ensures Valid() && users == map[]
    {
      users := map[];
    }

    method SaveUser(user: UserProfile) returns (err: Option<Error>)
      requires Valid()
      modifies this
      ensures Valid()
      ensures users == old(users)[user.id := user]
      ensures err == None
    {
      users := users[user.id := user];
      err := None;
    }

    method GetUserByID(id: string) returns (r: Result<UserProfile>)
      ensures id in users ==> r == Ok(users[id])
      ensures id !in users ==> r == Err(UserNotFound)
    {
      if id !in users {
        return Err(UserNotFound);
      }
      r := Ok(users[id]);
    }

    /** Some stored profile with this email, or "user not found" when there
        is none. Which one, when several share the email, is left open. */
    method GetUserByEmail(email: string) returns (r: Result<UserProfile>)
      requires Valid()
      ensures r.Ok? ==> r.value.email == email && r.value.id in users && users[r.value.id] == r.value
      ensures r.Err? <==> forall id :: id in users ==> users[id].email != email
      ensures r.Err? ==> r.error == UserNotFound
    {
      var unvisited := users.Keys;
      while unvisited != {}
        invariant unvisited <= users.Keys
        invariant forall id :: id in users && id !in unvisited ==> users[id].email != email
        decreases unvisited
      {
        var id :| id in unvisited;
        if users[id].email == email {
          return Ok(users[id]);
        }
        unvisited := unvisited - {id};
      }
      r := Err(UserNotFound);
    }
  }

  /** Saving a result and reading it back by its ID yields the same record. */
  method SaveThenGetResult(repo: InMemorySpeedTestRepo, result: SpeedTestResult) returns (got: Result<SpeedTestResult>)
    requires repo.Valid()
    modifies repo
    ensures repo.Valid()
    ensures got == Ok(result)
    ensures forall id :: id != result.id ==>
      (id in repo.results <==> id in old(repo.results)) && (id in repo.results ==> repo.results[id] == old(repo.results)[id])
  {
    var _ := repo.SaveResult(result);
    got := repo.GetResultByID(result.id);
  }

  /** After deleting an ID, reading it back fails with "result not found",
      whether or not it was stored before; every other entry is kept. */
  method DeleteThenGetResult(repo: InMemorySpeedTestRepo, id: string) returns (got: Result<SpeedTestResult>)
    requires repo.Valid()
    modifies repo
    ensures repo.Valid()
    ensures got == Err(ResultNotFound)
    ensures forall other :: other != id ==>
      (other in repo.results <==> other in old(repo.results)) && (other in repo.results ==> repo.results[other] == old(repo.results)[other])
    ensures id !in old(repo.results) ==> repo.results == old(repo.results)
  {
    var _ := repo.DeleteResult(id);
    got := repo.GetResultByID(id);
  }

  /** Saving a profile and reading it back by its ID yields the same profile,
      and so does looking up by its email succeed. */
  method SaveThenGetUser(repo: InMemoryUserRepo, user: UserProfile) returns (byID: Result<UserProfile>, byEmail: Result<UserProfile>)
    requires repo.Valid()
    modifies repo
    ensures repo.Valid()
    ensures byID == Ok(user)
    ensures byEmail.Ok? && byEmail.value.email == user.email
  {
    var _ := repo.SaveUser(user);
    byID := repo.GetUserByID(user.id);
    byEmail := repo.GetUserByEmail(user.email);
  }
}
