/** The TinyURL entity of public/scripts/entities/tiny_url.js and its visit analytics. */
module TinyUrls {

  /** `{ visitorID, timeStamp }`; the time stamp (a GMT date string) is a parameter. */
  datatype LogEntry = LogEntry(visitorID: string, timeStamp: string)

  /** No element of s occurs twice. */
  predicate Distinct<T(==)>(s: seq<T>)
  {
    forall i, j :: 0 <= i < j < |s| ==> s[i] != s[j]
  }

  function Elements<T>(s: seq<T>): set<T>
  {
    set x | x in s
  }

  /** The visitor ids that occur in a log. */
  function LoggedVisitors(logs: seq<LogEntry>): set<string>
  {
    set e | e in logs :: e.visitorID
  }

  /** A distinct sequence has as many elements as its set. */
  lemma {:induction false} DistinctCard<T>(s: seq<T>)
    requires Distinct(s)
    ensures |Elements(s)| == |s|
  {
    if s != [] {
      var t := s[1..];
      assert Distinct(t);
      DistinctCard(t);
      assert Elements(s) == {s[0]} + Elements(t);
      assert s[0] !in Elements(t);
    }
  }

  /** A log of n entries names at most n visitors. */
  lemma {:induction false} LoggedVisitorsCard(logs: seq<LogEntry>)
    ensures |LoggedVisitors(logs)| <= |logs|
  {
    if logs != [] {
      LoggedVisitorsCard(logs[1..]);
      assert LoggedVisitors(logs) == {logs[0].visitorID} + LoggedVisitors(logs[1..]);
    }
  }

  /**
   * A distinct list of visitors that are exactly the visitors named in a log
   * is no longer than the log: unique visits never exceed total visits.
   */
  lemma UniqueAtMostTotal(visitors: seq<string>, logs: seq<LogEntry>)
    requires Distinct(visitors)
    requires Elements(visitors) == LoggedVisitors(logs)
    ensures |visitors| <= |logs|
  {
    DistinctCard(visitors);
    LoggedVisitorsCard(logs);
  }

  class TinyURL {
    const id: string
    var longURL: string
    const userID: string
    var totalVisits: nat
    var uniqueVisits: nat
    var visitors: seq<string>
    /** Most recent visit first. */
    var logs: seq<LogEntry>

    /**
     * The counters agree with the lists, a visitor is listed once, and the
     * listed visitors are exactly those that appear in the log.
     */
    ghost predicate Valid()
      reads this
    {
      && uniqueVisits == |visitors|
      && totalVisits == |logs|
      && Distinct(visitors)
      && Elements(visitors) == LoggedVisitors(logs)
    }

    constructor (id: string, longURL: string, userID: string)
      ensures Valid()
      ensures this.id == id && this.longURL == longURL && this.userID == userID
      ensures totalVisits == 0 && uniqueVisits == 0 && visitors == [] && logs == []
    {
      this.id := id;
      this.longURL := longURL;
      this.userID := userID;
      totalVisits := 0;
      uniqueVisits := 0;
      visitors := [];
      logs := [];
    }

    method UpdateLongURL(newURL: string)
      requires Valid()
      modifies this`longURL
      ensures Valid()
      ensures longURL == newURL
    {
      longURL := newURL;
    }

    /** The id the link was created with owns it, and no other id does. */
    predicate IsOwnedBy(userID: string)
      ensures IsOwnedBy(userID) <==> userID == this.userID
    {
      this.userID == userID
    }

    /** In a valid link, a visitor is new exactly when the log does not name it. */
    predicate IsNewVisitor(visitorID: string)
      reads this
      ensures Valid() ==> (IsNewVisitor(visitorID) <==> visitorID !in LoggedVisitors(logs))
    {
      visitorID !in visitors
    }

    /**
     * Counts a visit: one more visit in all, one more unique visit and a new
     * entry in the visitor list when the visitor is new, and the visit at the
     * head of the log. The link itself is untouched.
     */
    method LogVisit(visitorID: string, timeStamp: string)
      requires Valid()
      modifies this`totalVisits, this`uniqueVisits, this`visitors, this`logs
      ensures Valid()
      ensures totalVisits == old(totalVisits) + 1
      ensures old(IsNewVisitor(visitorID)) ==>
        visitors == old(visitors) + [visitorID] && uniqueVisits == old(uniqueVisits) + 1
      ensures !old(IsNewVisitor(visitorID)) ==>
        visitors == old(visitors) && uniqueVisits == old(uniqueVisits)
      ensures logs == [LogEntry(visitorID, timeStamp)] + old(logs)
    {
      totalVisits := totalVisits + 1;
      if IsNewVisitor(visitorID) {
        assert Distinct(visitors + [visitorID]);
        assert Elements(visitors + [visitorID]) == Elements(visitors) + {visitorID};
        visitors := visitors + [visitorID];
        uniqueVisits := uniqueVisits + 1;
      }
      assert LoggedVisitors([LogEntry(visitorID, timeStamp)] + logs) == {visitorID} + LoggedVisitors(logs);
      logs := [LogEntry(visitorID, timeStamp)] + logs;
    }
  }

  /** In a valid link, unique visits never exceed total visits. */
  lemma ValidCounters(t: TinyURL)
    requires t.Valid()
    ensures t.uniqueVisits <= t.totalVisits
  {
    UniqueAtMostTotal(t.visitors, t.logs);
  }

  /** A visitor is new exactly when no log entry names it. */
  lemma NewVisitorIffNotLogged(t: TinyURL, visitorID: string)
    requires t.Valid()
    ensures t.IsNewVisitor(visitorID) <==>
      forall i :: 0 <= i < |t.logs| ==> t.logs[i].visitorID != visitorID
  {
    if !t.IsNewVisitor(visitorID) {
      assert visitorID in LoggedVisitors(t.logs);
    } else {
      forall i | 0 <= i < |t.logs| ensures t.logs[i].visitorID != visitorID {
        assert t.logs[i].visitorID in LoggedVisitors(t.logs);
      }
    }
  }

  /** Two visits by the same visitor: two visits, one unique, newest first. */
  method RepeatVisit(visitorID: string) returns (t: TinyURL)
    ensures t.Valid()
    ensures t.totalVisits == 2 && t.uniqueVisits == 1 && t.visitors == [visitorID]
    ensures t.logs == [LogEntry(visitorID, "second"), LogEntry(visitorID, "first")]
  {
    t := new TinyURL("urlRandomID", "http://www.example.com", "userRandomID");
    t.LogVisit(visitorID, "first");
    t.LogVisit(visitorID, "second");
  }
}
