/**
 * The exported helpers of the administrator dashboard: status filtering,
 * the card renderer, the group-index to status mapping, and the record
 * shapes the controller builds (normalised store records, patched bills).
 */
module DashboardHelpers {
  import opened Wrappers
  import opened JsValues
  import opened JsStrings

  // ---------------------------------------------------------------------
  // Filtering

  /**
   * Whether the dashboard runs under the test runner (no account is
   * hidden) or in production, where the designated test accounts and the
   * signed-in administrator's own email are hidden.
   */
  datatype Mode = TestMode | Production(usersTest: seq<string>, userEmail: Value)

  /** The list `[...USERS_TEST, userEmail]` of hidden emails. */
  function HiddenEmails(usersTest: seq<string>, userEmail: Value): (r: seq<Value>)
    ensures |r| == |usersTest| + 1
    ensures forall v :: v in r <==> v == userEmail || (v.Str? && v.s in usersTest)
  {
    if usersTest == [] then [userEmail]
    else [Str(usersTest[0])] + HiddenEmails(usersTest[1..], userEmail)
  }

  /** The filter callback: the bill has the target status and, in production, a visible email. */
  predicate Selected(mode: Mode, status: Value, bill: Record)
  {
    match mode
    case TestMode => Get(bill, "status") == status
    case Production(usersTest, userEmail) =>
      Get(bill, "status") == status && Get(bill, "email") !in HiddenEmails(usersTest, userEmail)
  }

  /** The callback keeps a bill iff its status matches and, in production, its email is neither the user's nor a test account's. */
  lemma SelectedMeaning(mode: Mode, status: Value, bill: Record)
    ensures mode.TestMode? ==> (Selected(mode, status, bill) <==> Get(bill, "status") == status)
    ensures mode.Production? ==>
              (Selected(mode, status, bill) <==>
                 && Get(bill, "status") == status
                 && Get(bill, "email") != mode.userEmail
                 && !(Get(bill, "email").Str? && Get(bill, "email").s in mode.usersTest))
  {
  }

  /** `data.filter(...)` with the callback above. */
  function Filter(data: seq<Record>, status: Value, mode: Mode): (r: seq<Record>)
    ensures |r| <= |data|
    ensures forall i :: 0 <= i < |r| ==> Selected(mode, status, r[i])
  {
    if data == [] then []
    else (if Selected(mode, status, data[0]) then [data[0]] else []) + Filter(data[1..], status, mode)
  }

  /** `filteredBills(data, status)`; `None` stands for an absent `data`. */
  function FilteredBills(data: Option<seq<Record>>, status: Value, mode: Mode): (r: seq<Record>)
    ensures data == None || data == Some([]) ==> r == []
    ensures data.Some? ==> r == Filter(data.value, status, mode)
  {
    if data.Some? && |data.value| > 0 then Filter(data.value, status, mode) else []
  }

  /** `a` can be obtained from `b` by deleting elements (order is kept). */
  ghost predicate IsSubsequence<T>(a: seq<T>, b: seq<T>)
    decreases |b|
  {
    a == [] || (b != [] && ((a[0] == b[0] && IsSubsequence(a[1..], b[1..])) || IsSubsequence(a, b[1..])))
  }

  lemma {:induction false} SubsequenceCounts<T>(a: seq<T>, b: seq<T>)
    requires IsSubsequence(a, b)
    ensures multiset(a) <= multiset(b)
    decreases |b|
  {
    if a != [] {
      assert b == [b[0]] + b[1..];
      if a[0] == b[0] && IsSubsequence(a[1..], b[1..]) {
        SubsequenceCounts(a[1..], b[1..]);
        assert a == [a[0]] + a[1..];
      } else {
        SubsequenceCounts(a, b[1..]);
      }
    }
  }

  /** Filtering keeps the order of the bills it keeps. */
  lemma {:induction false} FilterIsSubsequence(data: seq<Record>, status: Value, mode: Mode)
    ensures IsSubsequence(Filter(data, status, mode), data)
  {
    if data != [] {
      FilterIsSubsequence(data[1..], status, mode);
      var r := Filter(data, status, mode);
      if Selected(mode, status, data[0]) {
        assert r[0] == data[0] && r[1..] == Filter(data[1..], status, mode);
      } else {
        assert r == Filter(data[1..], status, mode);
      }
    }
  }

  /** Filtering keeps every selected bill, as often as it occurs, and nothing else. */
  lemma {:induction false} FilterCounts(data: seq<Record>, status: Value, mode: Mode)
    ensures forall b :: multiset(Filter(data, status, mode))[b]
                        == if Selected(mode, status, b) then multiset(data)[b] else 0
    ensures forall b :: b in Filter(data, status, mode) <==> b in data && Selected(mode, status, b)
  {
    if data != [] {
      FilterCounts(data[1..], status, mode);
      assert data == [data[0]] + data[1..];
    }
  }

  /**
   * The properties above characterise the filter: any subsequence of
   * `data` made of selected bills that keeps every selected bill is it.
   */
  lemma {:induction false} FilterUnique(data: seq<Record>, status: Value, mode: Mode, a: seq<Record>)
    requires IsSubsequence(a, data)
    requires forall i :: 0 <= i < |a| ==> Selected(mode, status, a[i])
    requires forall b :: Selected(mode, status, b) ==> multiset(a)[b] == multiset(data)[b]
    ensures a == Filter(data, status, mode)
    decreases |data|
  {
    if data == [] {
    } else {
      var d := data[0];
      assert data == [d] + data[1..];
      if Selected(mode, status, d) {
        assert multiset(a)[d] > 0;
        assert a != [] && a == [a[0]] + a[1..];
        if a[0] == d && IsSubsequence(a[1..], data[1..]) {
          FilterUnique(data[1..], status, mode, a[1..]);
        } else {
          SubsequenceCounts(a, data[1..]);
          assert false;
        }
      } else {
        if a != [] {
          assert Selected(mode, status, a[0]);
        }
        FilterUnique(data[1..], status, mode, a);
      }
    }
  }

  /** Outside test mode no hidden account is ever returned, and every other matching bill is. */
  lemma ProductionHidesAccounts(data: seq<Record>, status: Value, usersTest: seq<string>, userEmail: Value, b: Record)
    ensures b in FilteredBills(Some(data), status, Production(usersTest, userEmail))
            <==> b in data && Get(b, "status") == status && Get(b, "email") != userEmail
                 && !(Get(b, "email").Str? && Get(b, "email").s in usersTest)
  {
    FilterCounts(data, status, Production(usersTest, userEmail));
  }

  // ---------------------------------------------------------------------
  // Cards

  /** What one card shows; its markup is not modelled. `date` is shown through the locale formatter. */
  datatype CardView = CardView(id: Value, firstName: string, lastName: string,
                               name: Value, amount: Value, date: Value, kind: Value)

  /** `card` calls `bill.email.split`, which needs a string email. */
  predicate HasTextEmail(bill: Record)
  {
    Get(bill, "email").Str?
  }

  predicate AllTextEmails(bills: seq<Record>)
  {
    forall i :: 0 <= i < |bills| ==> HasTextEmail(bills[i])
  }

  /** `email.split('@')[0]`. */
  function LocalPart(email: string): string
  {
    Split(email, '@')[0]
  }

  /** The (firstName, lastName) pair `card` derives from an email. */
  function NameOf(email: string): (r: (string, string))
    ensures '@' !in r.0 && '.' !in r.0
    ensures '@' !in r.1 && '.' !in r.1
  {
    var local := LocalPart(email);
    SplitAvoids(email, '@', '.');
    SplitAvoids(local, '.', '@');
    if '.' in local then (Split(local, '.')[0], Split(local, '.')[1]) else ("", local)
  }

  /**
   * The local part is what precedes the first `@`; with a dot in it, the
   * first name is what precedes the first dot and the last name what lies
   * between the first and the second dot (or the end); without a dot the
   * whole local part is the last name.
   */
  lemma NameSplit(email: string)
    ensures var local := email[..IndexOf(email, '@')];
            var k := IndexOf(local, '.');
            if k < |local| then
              var after := local[k + 1..];
              NameOf(email) == (local[..k], after[..IndexOf(after, '.')])
            else NameOf(email) == ("", local)
  {
    SplitFirst(email, '@');
    var local := email[..IndexOf(email, '@')];
    SplitFirst(local, '.');
    var k := IndexOf(local, '.');
    if k < |local| {
      SplitFirst(local[k + 1..], '.');
    }
  }

  /** A dotted local part: "a.b@x" gives first name "a" and last name "b". */
  lemma NameExampleDotted()
    ensures NameOf("a.b@x") == ("a", "b")
  {
    NameSplit("a.b@x");
    assert IndexOf("a.b@x", '@') == 3 && "a.b@x"[..3] == "a.b";
    assert IndexOf("a.b", '.') == 1 && "a.b"[..1] == "a" && "a.b"[2..] == "b";
    assert IndexOf("b", '.') == 1 && "b"[..1] == "b";
  }

  /** No dot: "a@x" gives an empty first name and last name "a". */
  lemma NameExamplePlain()
    ensures NameOf("a@x") == ("", "a")
  {
    NameSplit("a@x");
    assert IndexOf("a@x", '@') == 1 && "a@x"[..1] == "a";
    assert IndexOf("a", '.') == 1;
  }

  /** `card(bill)`. */
  function Card(bill: Record): (c: CardView)
    requires HasTextEmail(bill)
    ensures c.id == Get(bill, "id")
    ensures (c.firstName, c.lastName) == NameOf(Get(bill, "email").s)
  {
    var (firstName, lastName) := NameOf(Get(bill, "email").s);
    CardView(Get(bill, "id"), firstName, lastName,
             Get(bill, "name"), Get(bill, "amount"), Get(bill, "date"), Get(bill, "type"))
  }

  /** `bills.map(card)`, the fragments whose concatenation is the markup. */
  function CardList(bills: seq<Record>): (r: seq<CardView>)
    requires AllTextEmails(bills)
    ensures |r| == |bills|
    ensures forall i :: 0 <= i < |r| ==> r[i] == Card(bills[i])
  {
    if bills == [] then [] else [Card(bills[0])] + CardList(bills[1..])
  }

  /** `cards(bills)`: no fragment (the empty string) for an absent or empty list. */
  function Cards(bills: Option<seq<Record>>): (r: seq<CardView>)
    requires bills.Some? ==> AllTextEmails(bills.value)
    ensures bills == None || bills == Some([]) ==> r == []
    ensures bills.Some? ==> r == CardList(bills.value)
  {
    if bills.Some? && |bills.value| > 0 then CardList(bills.value) else []
  }

  lemma AllTextEmailsConcat(a: seq<Record>, b: seq<Record>)
    requires AllTextEmails(a) && AllTextEmails(b)
    ensures AllTextEmails(a + b)
  {
    var ab := a + b;
    forall i | 0 <= i < |ab|
      ensures HasTextEmail(ab[i])
    {
      if i < |a| { assert ab[i] == a[i]; } else { assert ab[i] == b[i - |a|]; }
    }
  }

  lemma {:induction false} CardListConcat(a: seq<Record>, b: seq<Record>)
    requires AllTextEmails(a) && AllTextEmails(b)
    ensures AllTextEmails(a + b)
    ensures CardList(a + b) == CardList(a) + CardList(b)
  {
    AllTextEmailsConcat(a, b);
    if a == [] {
      assert a + b == b;
    } else {
      assert (a + b)[1..] == a[1..] + b;
      CardListConcat(a[1..], b);
      assert (a + b)[0] == a[0];
    }
  }

  /** Rendering a concatenation of lists concatenates their cards, in order. */
  lemma CardsConcat(a: seq<Record>, b: seq<Record>)
    requires AllTextEmails(a) && AllTextEmails(b)
    ensures AllTextEmails(a + b)
    ensures Cards(Some(a + b)) == Cards(Some(a)) + Cards(Some(b))
  {
    CardListConcat(a, b);
  }

  // ---------------------------------------------------------------------
  // Group index to status

  /** `getStatus(index)`; `None` stands for the switch falling through to `undefined`. */
  function GetStatus(index: int): (r: Option<string>)
    ensures r.Some? <==> 1 <= index <= 3
    ensures index == 1 ==> r == Some("pending")
    ensures index == 2 ==> r == Some("accepted")
    ensures index == 3 ==> r == Some("refused")
  {
    match index
    case 1 => Some("pending")
    case 2 => Some("accepted")
    case 3 => Some("refused")
    case _ => None
  }

  /** Distinct groups show distinct statuses. */
  lemma GetStatusInjective(i: int, j: int)
    requires GetStatus(i).Some? && GetStatus(i) == GetStatus(j)
    ensures i == j
  {
  }

  /** The status as the value handed to `filteredBills` (`undefined` when absent). */
  function StatusValue(status: Option<string>): (v: Value)
    ensures status.None? <==> v == Undefined
    ensures status.Some? ==> v == Str(status.value)
  {
    if status.Some? then Str(status.value) else Undefined
  }

  // ---------------------------------------------------------------------
  // Records built by the controller

  /** `{id: doc.id, ...doc, date: doc.date, status: doc.status}`. */
  function Normalize(doc: Record): (r: Record)
    ensures r.Keys == doc.Keys + {"id", "date", "status"}
    ensures forall k :: Get(r, k) == Get(doc, k)
  {
    With(With(map["id" := Get(doc, "id")] + doc, "date", Get(doc, "date")), "status", Get(doc, "status"))
  }

  /** `snapshot.map(normalise)`: same length, same order, every property read unchanged. */
  function NormalizeAll(docs: seq<Record>): (r: seq<Record>)
    ensures |r| == |docs|
    ensures forall i :: 0 <= i < |r| ==> r[i].Keys == docs[i].Keys + {"id", "date", "status"}
    ensures forall i, k :: 0 <= i < |r| ==> Get(r[i], k) == Get(docs[i], k)
  {
    if docs == [] then [] else [Normalize(docs[0])] + NormalizeAll(docs[1..])
  }

  /** `{...bill, status, commentAdmin: comment}`, the copy sent on accept and on refuse. */
  function Patched(bill: Record, status: string, comment: Value): (r: Record)
    ensures r.Keys == bill.Keys + {"status", "commentAdmin"}
    ensures Get(r, "status") == Str(status)
    ensures Get(r, "commentAdmin") == comment
    ensures forall k :: k != "status" && k != "commentAdmin" ==> Get(r, k) == Get(bill, k)
  {
    With(With(bill, "status", Str(status)), "commentAdmin", comment)
  }
}
