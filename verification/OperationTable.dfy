// The table of operations that a client builds from a server's capabilities.
module OperationTable {

  datatype Operation = Operation(name: string, path: string, verb: string, surface: string, runType: string)

  /** The arguments of one call of `add`. */
  type Offer = Operation

  type Table = map<string, Operation>

  const RUNS_PATH := "/mcp/v1/runs/start"

  function UpperChar(c: char): char {
    if 'a' <= c <= 'z' then c - 32 as char else c
  }

  function Upper(s: string): (r: string)
    ensures |r| == |s|
  {
    seq(|s|, i requires 0 <= i < |s| => UpperChar(s[i]))
  }

  /** The entry that an offer would become. */
  function EntryOf(o: Offer): Operation {
    var path := if o.path == "" && (o.surface == "runs.start" || o.runType != "") then RUNS_PATH else o.path;
    Operation(o.name, path, Upper(o.verb), if path == "/realize" then "runtime" else o.surface, o.runType)
  }

  /** `add`. */
  function AddOffer(table: Table, o: Offer): Table {
    if o.name == "" then table
    else if o.name in table && table[o.name].runType != "" && o.runType == "" then table
    else if o.name in table && table[o.name].runType != "" && o.runType == o.name && table[o.name].runType != o.runType
      then table
    else table[o.name := EntryOf(o)]
  }

  function AddAll(offers: seq<Offer>): Table {
    if offers == [] then map[] else AddOffer(AddAll(offers[..|offers| - 1]), offers[|offers| - 1])
  }

  // ---- Which offer wins ----

  /** No run type, the operation's own name, or a run type of another name. */
  function Rank(o: Operation): nat {
    if o.runType == "" then 0 else if o.runType == o.name then 1 else 2
  }

  /** Offer k is the last of the best offers for its name. */
  predicate Wins(offers: seq<Offer>, k: nat) {
    && k < |offers|
    && forall j :: 0 <= j < |offers| && offers[j].name == offers[k].name ==>
                     Rank(offers[j]) <= Rank(offers[k]) && (j > k ==> Rank(offers[j]) < Rank(offers[k]))
  }

  predicate IsOffered(offers: seq<Offer>, name: string) {
    exists o :: o in offers && o.name == name
  }

  /** The table's entry of this name was made from offer k, the last of the best. */
  predicate MadeFrom(offers: seq<Offer>, name: string, k: nat) {
    && k < |offers| && Wins(offers, k) && offers[k].name == name
    && name in AddAll(offers) && AddAll(offers)[name] == EntryOf(offers[k])
  }

  lemma AddRanks(table: Table, o: Offer)
    requires o.name != "" && (o.name in table ==> table[o.name].name == o.name)
    ensures AddOffer(table, o)
            == if o.name in table && Rank(o) < Rank(table[o.name]) then table else table[o.name := EntryOf(o)]
  {
    hide EntryOf;
  }

  lemma EntryKeepsRank(o: Offer)
    ensures EntryOf(o).name == o.name && EntryOf(o).runType == o.runType && Rank(EntryOf(o)) == Rank(o)
  {
  }

  /** Another offer for the same name. */
  lemma WinsStep(before: seq<Offer>, o: Offer, k: nat)
    requires Wins(before, k)
    ensures before[k].name != o.name || Rank(o) < Rank(before[k]) ==> Wins(before + [o], k)
    ensures before[k].name == o.name && Rank(o) >= Rank(before[k]) ==> Wins(before + [o], |before|)
  {
    hide Rank;
  }

  lemma WinsFirst(before: seq<Offer>, o: Offer)
    requires !IsOffered(before, o.name)
    ensures Wins(before + [o], |before|)
  {
    hide Rank;
    assert forall j :: 0 <= j < |before| ==> before[j] in before;
  }

  /** The entry of a name is made from the last of the best offers for it, and there is one if anything was offered. */
  lemma {:induction false} BestOfferWins(offers: seq<Offer>, name: string)
    ensures name in AddAll(offers) <==> name != "" && IsOffered(offers, name)
    ensures name in AddAll(offers) ==> exists k :: MadeFrom(offers, name, k)
  {
    hide EntryOf, Rank, Wins, AddOffer;
    if offers != [] {
      var n := |offers| - 1;
      var before, o := offers[..n], offers[n];
      BestOfferWins(before, name);
      assert offers == before + [o];
      if name in AddAll(before) {
        var k: nat :| MadeFrom(before, name, k);
        WinsStep(before, o, k);
        EntryKeepsRank(before[k]);
        OtherEntriesStay(AddAll(before), o, name);
        if o.name == name {
          AddRanks(AddAll(before), o);
          assert MadeFrom(offers, name, if Rank(o) < Rank(before[k]) then k else n);
        } else {
          assert MadeFrom(offers, name, k);
        }
      } else if o.name == name && name != "" {
        WinsFirst(before, o);
        AddRanks(AddAll(before), o);
        assert MadeFrom(offers, name, n);
      } else {
        OtherEntriesStay(AddAll(before), o, name);
      }
    }
  }

  lemma OtherEntriesStay(table: Table, o: Offer, name: string)
    ensures o.name != name || name == "" ==> (name in AddOffer(table, o) <==> name in table)
    ensures o.name != name && name in table ==> AddOffer(table, o)[name] == table[name]
  {
  }

  // ---- What does not depend on the order ----

  ghost predicate SameOffers(a: seq<Offer>, b: seq<Offer>) {
    forall o :: o in a <==> o in b
  }

  /**
   * A name ends with a run type exactly if someone offered it one, and with the run type of another operation exactly
   * if someone offered that; an entry with a run type has a path, and one whose path is /realize belongs to the
   * runtime.
   */
  lemma RunTypesSurvive(offers: seq<Offer>, name: string)
    requires name in AddAll(offers)
    ensures var e := AddAll(offers)[name];
      && e.name == name
      && (e.runType != "" <==> exists o :: o in offers && o.name == name && o.runType != "")
      && (e.runType != "" && e.runType != name
          <==> exists o :: o in offers && o.name == name && o.runType != "" && o.runType != name)
      && (e.runType != "" ==> e.path != "")
      && (e.path == "/realize" ==> e.surface == "runtime")
      && exists o :: o in offers && e == EntryOf(o)
  {
    hide Upper, AddAll;
    BestOfferWins(offers, name);
    var k: nat :| MadeFrom(offers, name, k);
    assert offers[k] in offers;
    forall o | o in offers && o.name == name
      ensures Rank(o) <= Rank(offers[k])
    {
      var j :| 0 <= j < |offers| && offers[j] == o;
    }
  }

  /** The verb in capital letters. */
  predicate IsCapital(verb: string, capital: string) {
    && |capital| == |verb|
    && forall i :: 0 <= i < |verb| ==>
         capital[i] as int == if 'a' <= verb[i] <= 'z' then verb[i] as int - 32 else verb[i] as int
  }

  /** What an entry takes over from the offer that won: a path of its own goes before the default, which is there for
      runs alone, and the path /realize belongs to the runtime. */
  lemma EntriesRepeatTheirOffer(offers: seq<Offer>, name: string)
    requires name in AddAll(offers)
    ensures exists k :: 0 <= k < |offers| && Wins(offers, k) && offers[k].name == name
                        && Repeats(AddAll(offers)[name], offers[k])
  {
    hide AddAll, Wins, Upper;
    BestOfferWins(offers, name);
    var k: nat :| MadeFrom(offers, name, k);
    EntryRepeats(offers[k]);
    hide EntryOf, Repeats;
  }

  predicate Repeats(e: Operation, o: Offer) {
    && e.name == o.name && e.runType == o.runType && IsCapital(o.verb, e.verb)
    && (o.path != "" ==> e.path == o.path)
    && (o.path == "" ==> e.path == if o.runType != "" || o.surface == "runs.start" then "/mcp/v1/runs/start" else "")
    && e.surface == (if e.path == "/realize" then "runtime" else o.surface)
  }

  lemma EntryRepeats(o: Offer)
    ensures Repeats(EntryOf(o), o)
  {
    assert RUNS_PATH[1] != "/realize"[1];
  }

  /** The kind of run type that a name ends with does not depend on the order: none, its own, or another's. */
  lemma PrecedenceIgnoresOrder(a: seq<Offer>, b: seq<Offer>, name: string)
    requires SameOffers(a, b)
    ensures name in AddAll(a) <==> name in AddAll(b)
    ensures name in AddAll(a) ==> Rank(AddAll(a)[name]) == Rank(AddAll(b)[name])
  {
    hide AddAll, EntryOf;
    BestOfferWins(a, name);
    BestOfferWins(b, name);
    if name in AddAll(a) {
      RunTypesSurvive(a, name);
      RunTypesSurvive(b, name);
    }
  }

  // ---- The table as it is built ----

  class OperationTable {
    var found: Table

    constructor ()
      ensures found == map[]
    {
      found := map[];
    }

    method Add(name: string, path: string, verb: string, surface: string, runType: string)
      modifies this
      ensures found == AddOffer(old(found), Operation(name, path, verb, surface, runType))
    {
      if name == "" {
        return;
      }
      var target, home := path, surface;
      if target == "" && (home == "runs.start" || runType != "") {
        target := RUNS_PATH;
      }
      if target == "/realize" {
        home := "runtime";
      }
      if name in found {
        var current := found[name];
        if current.runType != "" && runType == "" {
          return;
        }
        if current.runType != "" && runType == name && current.runType != runType {
          return;
        }
      }
      found := found[name := Operation(name, target, Upper(verb), home, runType)];
    }

    /** The calls of `_extract_operations`, in any order. */
    method AddOffers(offers: seq<Offer>)
      requires found == map[]
      modifies this
      ensures found == AddAll(offers)
    {
      for k := 0 to |offers|
        invariant found == AddAll(offers[..k])
      {
        var o := offers[k];
        assert offers[..k + 1][..k] == offers[..k];
        Add(o.name, o.path, o.verb, o.surface, o.runType);
      }
      assert offers[..|offers|] == offers;
    }
  }
}
