/**
 * The two concrete searches over the bank directory: "chase" lists only the Chase
 * bank, and the routing fragment "9999999" lists nothing.
 */
module BankSearchExamples {
  import opened JsString
  import opened Constants
  import opened BankSelector

  // Proof helpers for the searches below. A long field is cut into literal pieces so
  // that each fact about characters is checked on a short string.

  /** A field whose lower-cased form lacks the query's `j`-th character cannot include it. */
  lemma FieldMiss(field: string, query: string, j: nat)
    requires j < |query| && LowerLacks(field, query[j])
    ensures !Includes(Lower(field), query)
  {
    LowerAbsent(field, query[j]);
    CharAbsent(Lower(field), query, j);
  }

  /** A field `x + y` whose lower-cased form cannot include `query`: `x` lacks the
      query's first character, and `y` lacks its `j`-th character or is too short. */
  lemma SplitMiss(field: string, x: string, y: string, query: string, j: nat)
    requires field == x + y && j < |query|
    requires LowerLacks(x, query[0])
    requires LowerLacks(y, query[j]) || |y| < |query|
    ensures !Includes(Lower(field), query)
  {
    LowerAbsent(x, query[0]);
    forall k | 0 <= k <= |field| - |query| ensures !MatchesAt(Lower(field), query, k) {
      var w := Lower(field)[k..k + |query|];
      if k < |x| {
        assert w[0] == Lower(x)[k];
      } else {
        LowerAbsent(y, query[j]);
        assert w[j] == Lower(y)[k + j - |x|];
      }
    }
  }

  /** A field `x + [c] + y` whose lower-cased form cannot include `query`: `x` lacks the
      query's first character, a match starting at `c` breaks at the next character,
      and lower-cased `y` does not include the query. */
  lemma HeadMiss(field: string, x: string, c: char, y: string, query: string)
    requires field == x + [c] + y && |query| >= 2 && y != []
    requires LowerLacks(x, query[0]) && LowerChar(y[0]) != query[1]
    requires !Includes(Lower(y), query)
    ensures !Includes(Lower(field), query)
  {
    LowerAbsent(x, query[0]);
    forall k | 0 <= k <= |field| - |query| ensures !MatchesAt(Lower(field), query, k) {
      var w := Lower(field)[k..k + |query|];
      if k < |x| {
        assert w[0] == Lower(x)[k];
      } else if k == |x| {
        assert w[1] == LowerChar(y[0]);
      } else {
        var k' := k - |x| - 1;
        assert !MatchesAt(Lower(y), query, k');
        assert w == Lower(y)[k'..k' + |query|];
      }
    }
  }

  /** The case-sensitive variant for the routing number: `x` lacks the query's first
      character, and `y` lacks its `j`-th character or is too short. */
  lemma RoutingSplitMiss(routing: string, x: string, y: string, query: string, j: nat)
    requires routing == x + y && query != [] && j < |query|
    requires query[0] !in x
    requires query[j] !in y || |y| < |query|
    ensures !Includes(routing, query)
  {
    if |y| >= |query| {
      CharAbsent(y, query, j);
    }
    IncludesAfterPrefix(x, y, query);
  }

  // The two searches on each bank. Each search is proved on the bank's fields passed
  // as plain strings (a long address cut into literal pieces), one query at a time;
  // a third lemma per query transfers the facts to the directory record.

  /** Bank '1''s short fields lack "chase": no 'h' in the name, no 'c' elsewhere. */
  lemma Bank1ChaseFields(name: string, swift: string, routing: string, iban: string)
    requires name == "Bank of America" && swift == "BOFAUS3N" && routing == "026009593" && iban == "US45BOFA1234567890"
    ensures !Includes(Lower(name), "chase") && !Includes(Lower(swift), "chase")
    ensures !Includes(routing, "chase") && !Includes(Lower(iban), "chase")
  {
    FieldMiss(name, "chase", 1);
    FieldMiss(swift, "chase", 0);
    CharAbsent(routing, "chase", 0);
    FieldMiss(iban, "chase", 0);
  }

  /** Bank '1''s short fields lack "9999999": too few characters follow each '9'. */
  lemma Bank1NinesFields(name: string, swift: string, routing: string, iban: string)
    requires name == "Bank of America" && swift == "BOFAUS3N" && routing == "026009593" && iban == "US45BOFA1234567890"
    ensures !Includes(Lower(name), "9999999") && !Includes(Lower(swift), "9999999")
    ensures !Includes(routing, "9999999") && !Includes(Lower(iban), "9999999")
  {
    FieldMiss(name, "9999999", 0);
    FieldMiss(swift, "9999999", 0);
    RoutingSplitMiss(routing, "02600", "9593", "9999999", 0);
    SplitMiss(iban, "US45BOFA12345678", "90", "9999999", 0);
  }

  /** Bank '1''s address holds "Charlotte", but no 's' follows its 'c'. */
  lemma Bank1ChaseAddress(address: string)
    requires address == "100 North Tryon Street, " + "Charlotte, NC 28255"
    ensures !Includes(Lower(address), "chase")
  {
    SplitMiss(address, "100 North Tryon Street, ", "Charlotte, NC 28255", "chase", 3);
  }

  /** Bank '1''s address has no '9'. */
  lemma Bank1NinesAddress(address: string)
    requires address == "100 North Tryon Street, " + "Charlotte, NC 28255"
    ensures !Includes(Lower(address), "9999999")
  {
    FieldMiss(address, "9999999", 0);
  }

  lemma Bank1Chase()
    ensures !MatchesQuery(MockBanks[0], "chase")
  {
    var b := MockBanks[0];
    assert Lower("chase") == "chase";
    Bank1ChaseFields(b.name, b.swift, b.ach.routing, b.iban);
    Bank1ChaseAddress(b.address);
  }

  lemma Bank1Nines()
    ensures !MatchesQuery(MockBanks[0], "9999999")
  {
    var b := MockBanks[0];
    assert Lower("9999999") == "9999999";
    Bank1NinesFields(b.name, b.swift, b.ach.routing, b.iban);
    Bank1NinesAddress(b.address);
  }

  /** Bank '2''s short fields lack "9999999"; in its IBAN the one '9' is followed by an '8'. */
  lemma Bank2NinesFields(name: string, swift: string, routing: string, iban: string)
    requires name == "Chase" && swift == "CHASUS33" && routing == "021000021" && iban == "US66CHAS9876543210"
    ensures !Includes(Lower(name), "9999999") && !Includes(Lower(swift), "9999999")
    ensures !Includes(routing, "9999999") && !Includes(Lower(iban), "9999999")
  {
    FieldMiss(name, "9999999", 0);
    FieldMiss(swift, "9999999", 0);
    CharAbsent(routing, "9999999", 0);
    FieldMiss("876543210", "9999999", 0);
    HeadMiss(iban, "US66CHAS", '9', "876543210", "9999999");
  }

  /** Bank '2''s address ends in a single '9'. */
  lemma Bank2NinesAddress(address: string)
    requires address == "383 Madison Avenue, " + "New York, NY 10179"
    ensures !Includes(Lower(address), "9999999")
  {
    SplitMiss(address, "383 Madison Avenue, " + "New York, NY 1017", "9", "9999999", 0);
  }

  /** Bank '2''s name, lower-cased, is the query "chase" itself. */
  lemma Bank2Chase()
    ensures MatchesQuery(MockBanks[1], "chase")
  {
    var b := MockBanks[1];
    assert Lower("chase") == "chase";
    assert Lower(b.name) == "chase";
    assert MatchesAt(Lower(b.name), "chase", 0);
  }

  lemma Bank2Nines()
    ensures !MatchesQuery(MockBanks[1], "9999999")
  {
    var b := MockBanks[1];
    assert Lower("9999999") == "9999999";
    Bank2NinesFields(b.name, b.swift, b.ach.routing, b.iban);
    Bank2NinesAddress(b.address);
  }

  /** Bank '3''s IBAN has no 'c'. */
  lemma Bank3ChaseIban(iban: string)
    requires iban == "US89WFBG5432109876"
    ensures !Includes(Lower(iban), "chase")
  {
    FieldMiss(iban, "chase", 0);
  }

  /** Bank '3''s short fields have no 'c'. */
  lemma Bank3ChaseFields(name: string, swift: string, routing: string, iban: string)
    requires name == "Wells Fargo" && swift == "WFBIUS6S" && routing == "121000248" && iban == "US89WFBG5432109876"
    ensures !Includes(Lower(name), "chase") && !Includes(Lower(swift), "chase")
    ensures !Includes(routing, "chase") && !Includes(Lower(iban), "chase")
  {
    FieldMiss(name, "chase", 0);
    FieldMiss(swift, "chase", 0);
    CharAbsent(routing, "chase", 0);
    Bank3ChaseIban(iban);
  }

  /** Bank '3''s short fields lack "9999999". */
  lemma Bank3NinesFields(name: string, swift: string, routing: string, iban: string)
    requires name == "Wells Fargo" && swift == "WFBIUS6S" && routing == "121000248" && iban == "US89WFBG5432109876"
    ensures !Includes(Lower(name), "9999999") && !Includes(Lower(swift), "9999999")
    ensures !Includes(routing, "9999999") && !Includes(Lower(iban), "9999999")
  {
    FieldMiss(name, "9999999", 0);
    FieldMiss(swift, "9999999", 0);
    CharAbsent(routing, "9999999", 0);
    Bank3NinesIban(iban);
  }

  /** Bank '3''s IBAN: each '9' is followed by another digit. */
  lemma Bank3NinesIban(iban: string)
    requires iban == "US89WFBG5432109876"
    ensures !Includes(Lower(iban), "9999999")
  {
    SplitMiss("WFBG5432109876", "WFBG543210", "9876", "9999999", 0);
    HeadMiss(iban, "US8", '9', "WFBG5432109876", "9999999");
  }

  /** Bank '3''s address: no 'c' before "San Francisco", and no 'h' in it. */
  lemma Bank3ChaseAddress(address: string)
    requires address == "420 Montgomery Street, " + "San Francisco, CA 94104"
    ensures !Includes(Lower(address), "chase")
  {
    SplitMiss(address, "420 Montgomery Street, ", "San Francisco, CA 94104", "chase", 1);
  }

  /** Bank '3''s address has only five characters from its first '9' on. */
  lemma Bank3NinesAddress(address: string)
    requires address == "420 Montgomery Street, " + "San Francisco, CA 94104"
    ensures !Includes(Lower(address), "9999999")
  {
    SplitMiss(address, "420 Montgomery Street, " + "San Francisco, CA ", "94104", "9999999", 0);
  }

  lemma Bank3Chase()
    ensures !MatchesQuery(MockBanks[2], "chase")
  {
    var b := MockBanks[2];
    assert Lower("chase") == "chase";
    Bank3ChaseFields(b.name, b.swift, b.ach.routing, b.iban);
    Bank3ChaseAddress(b.address);
  }

  lemma Bank3Nines()
    ensures !MatchesQuery(MockBanks[2], "9999999")
  {
    var b := MockBanks[2];
    assert Lower("9999999") == "9999999";
    Bank3NinesFields(b.name, b.swift, b.ach.routing, b.iban);
    Bank3NinesAddress(b.address);
  }

  /** Bank '4''s short fields have no 'h'. */
  lemma Bank4ChaseFields(name: string, swift: string, routing: string, iban: string)
    requires name == "Citibank" && swift == "CITIUS33" && routing == "021000089" && iban == "US12CITI3456789012"
    ensures !Includes(Lower(name), "chase") && !Includes(Lower(swift), "chase")
    ensures !Includes(routing, "chase") && !Includes(Lower(iban), "chase")
  {
    FieldMiss(name, "chase", 1);
    FieldMiss(swift, "chase", 1);
    CharAbsent(routing, "chase", 0);
    FieldMiss(iban, "chase", 1);
  }

  /** Bank '4''s short fields lack "9999999": too few characters follow each '9'. */
  lemma Bank4NinesFields(name: string, swift: string, routing: string, iban: string)
    requires name == "Citibank" && swift == "CITIUS33" && routing == "021000089" && iban == "US12CITI3456789012"
    ensures !Includes(Lower(name), "9999999") && !Includes(Lower(swift), "9999999")
    ensures !Includes(routing, "9999999") && !Includes(Lower(iban), "9999999")
  {
    FieldMiss(name, "9999999", 0);
    FieldMiss(swift, "9999999", 0);
    RoutingSplitMiss(routing, "02100008", "9", "9999999", 0);
    SplitMiss(iban, "US12CITI345678", "9012", "9999999", 0);
  }

  /** Bank '4''s address has no 'a'. */
  lemma Bank4ChaseAddress(address: string)
    requires address == "388 Greenwich Street, " + "New York, NY 10013"
    ensures !Includes(Lower(address), "chase")
  {
    FieldMiss(address, "chase", 2);
  }

  /** Bank '4''s address has no '9'. */
  lemma Bank4NinesAddress(address: string)
    requires address == "388 Greenwich Street, " + "New York, NY 10013"
    ensures !Includes(Lower(address), "9999999")
  {
    FieldMiss(address, "9999999", 0);
  }

  lemma Bank4Chase()
    ensures !MatchesQuery(MockBanks[3], "chase")
  {
    var b := MockBanks[3];
    assert Lower("chase") == "chase";
    Bank4ChaseFields(b.name, b.swift, b.ach.routing, b.iban);
    Bank4ChaseAddress(b.address);
  }

  lemma Bank4Nines()
    ensures !MatchesQuery(MockBanks[3], "9999999")
  {
    var b := MockBanks[3];
    assert Lower("9999999") == "9999999";
    Bank4NinesFields(b.name, b.swift, b.ach.routing, b.iban);
    Bank4NinesAddress(b.address);
  }

  /** Searching "chase" lists bank '2' and no other bank. */
  lemma ChaseQueryFindsOnlyBank2()
    ensures forall b :: b in MockBanks ==> (b in FilteredBanks("chase") <==> b.id == "2")
  {
    Bank1Chase();
    Bank2Chase();
    Bank3Chase();
    Bank4Chase();
    forall b | b in MockBanks ensures MatchesQuery(b, "chase") <==> b.id == "2" {
      var i :| 0 <= i < |MockBanks| && MockBanks[i] == b;
      assert i == 0 || i == 1 || i == 2 || i == 3;
    }
  }

  /** Searching for a routing fragment no bank has, "9999999", lists nothing. */
  lemma UnknownRoutingQueryFindsNothing()
    ensures FilteredBanks("9999999") == []
  {
    Bank1Nines();
    Bank2Nines();
    Bank3Nines();
    Bank4Nines();
    forall b | b in MockBanks ensures !MatchesQuery(b, "9999999") {
      var i :| 0 <= i < |MockBanks| && MockBanks[i] == b;
      assert i == 0 || i == 1 || i == 2 || i == 3;
    }
  }
}
