/**
 * The reading store of the glucose service: readings are rows of a table in
 * insertion order, so "newest `createdAt` first" is the reverse of that order.
 * Every operation first looks the user up in the user table.
 */
module Glucose {
  import opened Common
  import opened Users

  /**
   * A stored reading. `timestamp` is the measurement time and `createdAt`
   * the time the row was written; a row written by `createReading` gets the
   * store's clock for both.
   */
  datatype GlucoseReading = GlucoseReading(id: string, userId: string, value: real, timestamp: int, createdAt: int)

  /** What `createReading` receives: the user, the value and the optional `timestamp` of the body. */
  datatype CreateGlucoseInput = CreateGlucoseInput(userId: string, value: real, timestamp: Option<int>)

  function Min(a: nat, b: nat): nat {
    if a < b then a else b
  }

  function UserNotFound(userId: string): Error {
    NotFound("User with ID " + userId + " not found")
  }

  function NoReadings(userId: string): Error {
    NotFound("No glucose readings found for user with ID " + userId)
  }

  /** The readings of one user, in insertion order. */
  function ReadingsOf(readings: seq<GlucoseReading>, userId: string): (r: seq<GlucoseReading>)
    ensures |r| <= |readings|
    ensures forall i :: 0 <= i < |r| ==> r[i].userId == userId
    ensures forall x :: x in r <==> x in readings && x.userId == userId
  {
    if readings == [] then []
    else if readings[0].userId == userId then [readings[0]] + ReadingsOf(readings[1..], userId)
    else ReadingsOf(readings[1..], userId)
  }

  /** Readings of other users do not change what a user's readings are. */
  lemma {:induction false} ReadingsOfAppend(readings: seq<GlucoseReading>, x: GlucoseReading, userId: string)
    ensures ReadingsOf(readings + [x], userId) ==
              ReadingsOf(readings, userId) + (if x.userId == userId then [x] else [])
  {
    if readings == [] {
      assert readings + [x] == [x];
      assert [x][1..] == [];
    } else {
      assert (readings + [x])[1..] == readings[1..] + [x];
      ReadingsOfAppend(readings[1..], x, userId);
    }
  }

  class ReadingTable {
    var readings: seq<GlucoseReading>

    constructor ()
      ensures readings == []
    {
      readings := [];
    }

    /**
     * `createReading(dto)`: for a known user, stores one reading with that
     * user and value. The body's `timestamp` is not passed to the store,
     * which stamps the row with its own clock `now`; `id` is the new row's
     * identifier.
     */
    method CreateReading(users: UserTable, dto: CreateGlucoseInput, id: string, now: int)
      returns (r: Result<GlucoseReading>)
      modifies this
      ensures users.FindOne(dto.userId).None? ==>
                r == Err(UserNotFound(dto.userId)) && readings == old(readings)
      ensures users.FindOne(dto.userId).Some? ==>
                r == Ok(GlucoseReading(id, dto.userId, dto.value, now, now))
                && readings == old(readings) + [r.value]
    {
      if users.FindOne(dto.userId).None? {
        return Err(UserNotFound(dto.userId));
      }
      var reading := GlucoseReading(id, dto.userId, dto.value, now, now);
      readings := readings + [reading];
      r := Ok(reading);
    }

    /**
     * `getUserReadings(userId, limit = 10)`: the user's readings, newest
     * first, at most `limit` of them.
     */
    function GetUserReadings(users: UserTable, userId: string, limit: Option<nat>): (r: Result<seq<GlucoseReading>>)
      reads this, users
      ensures users.FindOne(userId).None? <==> r == Err(UserNotFound(userId))
      ensures r.Ok? ==> r.value == NewestFirst(ReadingsOf(readings, userId), limit.GetOr(10))
    {
      if users.FindOne(userId).None? then Err(UserNotFound(userId))
      else Ok(NewestFirst(ReadingsOf(readings, userId), limit.GetOr(10)))
    }

    /** `getLatestReading(userId)`: the user's most recently stored reading. */
    function GetLatestReading(users: UserTable, userId: string): (r: Result<GlucoseReading>)
      reads this, users
      ensures users.FindOne(userId).None? ==> r == Err(UserNotFound(userId))
      ensures users.FindOne(userId).Some? && ReadingsOf(readings, userId) == [] ==> r == Err(NoReadings(userId))
      ensures r.Ok? <==> users.FindOne(userId).Some? && ReadingsOf(readings, userId) != []
      ensures r.Ok? ==> r.value in readings && r.value.userId == userId
      ensures r.Ok? ==> var mine := ReadingsOf(readings, userId); r.value == mine[|mine| - 1]
    {
      if users.FindOne(userId).None? then Err(UserNotFound(userId))
      else
        var mine := ReadingsOf(readings, userId);
        if mine == [] then Err(NoReadings(userId)) else Ok(mine[|mine| - 1])
    }
  }

  /**
   * A listing is the user's readings newest first, min(count, limit) of them
   * (the limit is ten by default), and each one is a stored reading of that user.
   */
  lemma ListingIsTheUsers(table: ReadingTable, users: UserTable, userId: string, limit: Option<nat>)
    ensures var r := table.GetUserReadings(users, userId, limit);
      var mine := ReadingsOf(table.readings, userId);
      r.Ok? ==> (&& |r.value| == Min(|mine|, limit.GetOr(10))
                 && |r.value| <= limit.GetOr(10)
                 && (forall i :: 0 <= i < |r.value| ==> r.value[i] == mine[|mine| - 1 - i])
                 && forall i :: 0 <= i < |r.value| ==> r.value[i] in table.readings && r.value[i].userId == userId)
  {
    var r := table.GetUserReadings(users, userId, limit);
    if r.Ok? {
      var mine := ReadingsOf(table.readings, userId);
      forall i | 0 <= i < |r.value| ensures r.value[i] in table.readings && r.value[i].userId == userId {
        assert r.value[i] == mine[|mine| - 1 - i];
      }
    }
  }

  /** When the user has readings, the latest one heads every non-empty listing. */
  lemma LatestHeadsListing(table: ReadingTable, users: UserTable, userId: string, limit: Option<nat>)
    requires limit.GetOr(10) > 0
    ensures table.GetLatestReading(users, userId).Ok? ==>
              table.GetUserReadings(users, userId, limit).Ok?
              && |table.GetUserReadings(users, userId, limit).value| >= 1
              && table.GetUserReadings(users, userId, limit).value[0] == table.GetLatestReading(users, userId).value
  {
  }

  /** Storing a reading for one user shows up first in that user's listing and leaves every other user's listing as it was. */
  lemma NewReadingListedFirst(table: ReadingTable, users: UserTable, before: seq<GlucoseReading>, x: GlucoseReading, userId: string)
    requires table.readings == before + [x]
    requires users.FindOne(userId).Some?
    ensures x.userId == userId ==> table.GetLatestReading(users, userId) == Ok(x)
    ensures x.userId != userId ==> ReadingsOf(table.readings, userId) == ReadingsOf(before, userId)
  {
    ReadingsOfAppend(before, x, userId);
  }
}
