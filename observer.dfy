/** The observer demo. A Store (the subject) keeps a duplicate-free list of
    registered customers, a one-slot message and a `changed` flag. Posting a
    message arms the slot, broadcasts to a snapshot of the registered
    customers and empties the slot again. A woken Customer pulls the current
    message from every store in its OWN list, which is kept independently of
    the stores' registrations. Each `synchronized` block is one atomic step
    of a single-threaded model; printed lines form the returned trace. */
module Observer {
  import opened Common

  /** The line Store.postMessage prints before it broadcasts. */
  function PostedLine(store: string, msg: string): string {
    "-> " + store + " posted " + msg
  }

  /** The line Customer.update prints for one store it queried: the message,
      or that there is none (Java's null). */
  function ReportLine(customer: string, storeId: string, msg: Option<string>): string {
    match msg
    case None => customer + " has no new message from " + storeId
    case Some(m) => "<- " + customer + " received " + m
  }

  /** ArrayList.contains / add as Store.register uses them: add at the end,
      unless already present. */
  function Registered<T(==)>(cs: seq<T>, c: T): (r: seq<T>)
    ensures c in r && |cs| <= |r| && r[..|cs|] == cs
    ensures |r| == if c in cs then |cs| else |cs| + 1
  {
    if c in cs then cs else cs + [c]
  }

  /** Registration never creates a duplicate. */
  lemma RegisterKeepsNoDup<T>(cs: seq<T>, c: T)
    requires NoDup(cs)
    ensures NoDup(Registered(cs, c))
    ensures c !in cs ==> Registered(cs, c)[..|cs|] == cs && |Registered(cs, c)| == |cs| + 1
    ensures c in cs ==> Registered(cs, c) == cs
  {
    if c !in cs {
      var r := cs + [c];
      forall i, j | 0 <= i < j < |r| ensures r[i] != r[j] {
        if j == |cs| { assert r[i] == cs[i]; }
      }
    }
  }

  /** Unregistering a customer that was not registered before undoes the
      registration exactly. */
  lemma UnregisterUndoesRegister<T>(cs: seq<T>, c: T)
    requires c !in cs
    ensures RemoveFirst(Registered(cs, c), c) == cs
  {
    var r := cs + [c];
    var i := IndexOf(r, c);
    assert r[..|cs|] == cs;
  }

  /** What a customer sees of a store while a broadcast is in flight: the
      stores in `pending` are in the middle of their own postMessage and
      hold the given message; every other store shows its slot. */
  function Seen(s: Store, pending: map<Store, string>): Option<string>
    reads if s in pending then {} else {s}
  {
    if s in pending then Some(pending[s]) else s.message
  }

  /** The lines Customer.update prints: one per entry of its store list, in
      list order, whatever store woke it. */
  function Reports(customer: string, stores: seq<Store>, pending: map<Store, string>): seq<string>
    reads set s | s in stores && s !in pending
  {
    if stores == [] then []
    else
      var last := stores[|stores| - 1];
      Reports(customer, stores[..|stores| - 1], pending)
        + [ReportLine(customer, last.name, Seen(last, pending))]
  }

  /** The store list of a customer; the demo never wakes a customer whose
      list is still null (see Customer.Update). */
  function StoresOf(c: Customer): seq<Store>
    reads c
  {
    if c.stores.Some? then c.stores.value else []
  }

  /** Every customer in `cs` has called addSubject at least once. */
  predicate Wired(cs: seq<Customer>)
    reads cs
  {
    forall c :: c in cs ==> c.stores.Some?
  }

  /** The lines printed while the customers `cs` are updated one after the
      other. */
  function Broadcast(cs: seq<Customer>, pending: map<Store, string>): seq<string>
    reads cs, set c, s | c in cs && c.stores.Some? && s in c.stores.value && s !in pending :: s
  {
    if cs == [] then []
    else
      var last := cs[|cs| - 1];
      Broadcast(cs[..|cs| - 1], pending) + Reports(last.name, StoresOf(last), pending)
  }

  lemma BroadcastSnoc(cs: seq<Customer>, c: Customer, pending: map<Store, string>)
    ensures Broadcast(cs + [c], pending) == Broadcast(cs, pending) + Reports(c.name, StoresOf(c), pending)
  {
    assert (cs + [c])[..|cs|] == cs;
  }

  /** The same step read on a prefix of one list. */
  lemma BroadcastPrefix(cs: seq<Customer>, i: nat, pending: map<Store, string>)
    requires i < |cs|
    ensures Broadcast(cs[..i + 1], pending) == Broadcast(cs[..i], pending) + Reports(cs[i].name, StoresOf(cs[i]), pending)
  {
    assert cs[..i + 1][..i] == cs[..i];
  }

  /** Breadth on wake: a woken customer prints exactly one line per entry of
      its store list, and line i is about the i-th store, with that store's
      message if it has one. */
  lemma {:induction false} ReportsAt(customer: string, stores: seq<Store>, pending: map<Store, string>)
    ensures |Reports(customer, stores, pending)| == |stores|
    ensures forall i :: 0 <= i < |stores| ==>
      Reports(customer, stores, pending)[i] == ReportLine(customer, stores[i].name, Seen(stores[i], pending))
  {
    if stores != [] {
      ReportsAt(customer, stores[..|stores| - 1], pending);
    }
  }

  /** A store that is in the middle of posting `m` holds `m` in its slot, so
      describing it as pending changes nothing in what a customer reads. */
  lemma {:induction false} ReportsPending(customer: string, stores: seq<Store>, origin: Store, m: string)
    requires origin.message == Some(m)
    ensures Reports(customer, stores, map[]) == Reports(customer, stores, map[origin := m])
  {
    if stores != [] {
      ReportsPending(customer, stores[..|stores| - 1], origin, m);
    }
  }

  lemma {:induction false} BroadcastPending(cs: seq<Customer>, origin: Store, m: string)
    requires origin.message == Some(m)
    ensures Broadcast(cs, map[]) == Broadcast(cs, map[origin := m])
  {
    if cs != [] {
      BroadcastPending(cs[..|cs| - 1], origin, m);
      ReportsPending(cs[|cs| - 1].name, StoresOf(cs[|cs| - 1]), origin, m);
    }
  }

  /** The loop of Store.notifyObservers over its snapshot: each customer is
      updated once, in order, and their lines follow one another. */
  method UpdateAll(snapshot: seq<Customer>) returns (trace: seq<string>)
    requires Wired(snapshot)
    ensures trace == Broadcast(snapshot, map[])
  {
    trace := [];
    var i := 0;
    assert snapshot[..0] == [];
    while i < |snapshot|
      invariant 0 <= i <= |snapshot|
      invariant Wired(snapshot)
      invariant trace == Broadcast(snapshot[..i], map[])
    {
      trace := UpdateNext(snapshot, i, trace);
      i := i + 1;
    }
    assert snapshot[..i] == snapshot;
  }

  /** One turn of that loop: customer i is updated and its lines are
      appended to what the earlier customers printed. */
  method UpdateNext(snapshot: seq<Customer>, i: nat, trace: seq<string>) returns (next: seq<string>)
    requires i < |snapshot| && Wired(snapshot)
    requires trace == Broadcast(snapshot[..i], map[])
    ensures Wired(snapshot)
    ensures next == Broadcast(snapshot[..i + 1], map[])
  {
    var c := snapshot[i];
    var lines := c.Update();
    // Update changes nothing, so the lines printed so far keep their description
    assert trace == Broadcast(snapshot[..i], map[]);
    BroadcastPrefix(snapshot, i, map[]);
    next := trace + lines;
  }

  class Store {
    const name: string
    var customers: seq<Customer>
    var message: Option<string>
    var changed: bool

    /** The registration list never holds a customer twice. */
    ghost predicate Valid()
      reads this
    {
      NoDup(customers)
    }

    /** No broadcast is in flight: nothing pending and the flag down. */
    predicate Idle()
      reads this
    {
      message == None && !changed
    }

    constructor (storeName: string)
      ensures name == storeName
      ensures customers == [] && Valid() && Idle()
    {
      name := storeName;
      customers := [];
      message := None;
      changed := false;
    }

    function GetId(): string {
      name
    }

    /** Any caller, registered or not, gets the current slot. */
    function GetUpdate(obj: Customer): Option<string>
      reads this
    {
      message
    }

    method Register(obj: Customer)
      requires Valid()
      modifies this
      ensures Valid()
      ensures customers == Registered(old(customers), obj)
      ensures message == old(message) && changed == old(changed)
    {
      RegisterKeepsNoDup(customers, obj);
      if obj !in customers {
        customers := customers + [obj];
      }
    }

    method Unregister(obj: Customer)
      requires Valid()
      modifies this
      ensures Valid()
      ensures customers == RemoveFirst(old(customers), obj)
      ensures obj !in customers
      ensures forall c :: c in customers <==> c in old(customers) && c != obj
      ensures message == old(message) && changed == old(changed)
    {
      RemoveFirstNoDup(customers, obj);
      customers := RemoveFirst(customers, obj);
    }

    /** With the flag down nothing happens. Otherwise the registration list
        is copied and the flag cleared in one step, then each customer of
        the copy is updated once, in list order (`woken`). */
    method NotifyObservers() returns (trace: seq<string>, ghost woken: seq<Customer>)
      requires changed ==> Wired(customers)
      modifies this
      ensures customers == old(customers) && message == old(message) && !changed
      ensures woken == if old(changed) then customers else []
      ensures trace == Broadcast(woken, map[])
    {
      if !changed {
        return [], [];
      }
      var snapshot := customers;
      changed := false;
      trace := UpdateAll(snapshot);
      woken := snapshot;
    }

    /** Prints the posted line, arms the slot, broadcasts, and empties the
        slot: during the broadcast every customer reads `msg` from this
        store; afterwards the store is idle again. */
    method PostMessage(msg: string) returns (trace: seq<string>)
      requires Wired(customers)
      modifies this
      ensures customers == old(customers) && Idle()
      ensures trace == [PostedLine(name, msg)] + Broadcast(customers, map[this := msg])
    {
      trace := [PostedLine(name, msg)];
      message := Some(msg);
      changed := true;
      var lines, _ := NotifyObservers();
      BroadcastPending(customers, this, msg);
      message := None;
      trace := trace + lines;
    }
  }

  class Customer {
    const name: string
    /** Java's `stores` list: null until the first addSubject. */
    var stores: Option<seq<Store>>

    constructor (customerName: string)
      ensures name == customerName && stores == None
    {
      name := customerName;
      stores := None;
    }

    /** Queries every store of the customer's own list, in insertion order.
        Before any addSubject the list is null and Java throws, hence the
        precondition. */
    method Update() returns (trace: seq<string>)
      requires stores.Some?
      ensures trace == Reports(name, stores.value, map[])
    {
      var list := stores.value;
      trace := [];
      var i := 0;
      while i < |list|
        invariant 0 <= i <= |list|
        invariant trace == Reports(name, list[..i], map[])
      {
        var msg := list[i].GetUpdate(this);
        assert list[..i + 1][..i] == list[..i];
        trace := trace + [ReportLine(name, list[i].GetId(), msg)];
        i := i + 1;
      }
      assert list[..i] == list;
    }

    /** Creates the list on first use and appends, duplicates included; the
        store's own registrations are not touched. */
    method AddSubject(subject: Store)
      modifies this
      ensures old(stores).None? ==> stores == Some([subject])
      ensures old(stores).Some? ==> stores == Some(old(stores).value + [subject])
    {
      if stores.None? {
        stores := Some([subject]);
      } else {
        stores := Some(stores.value + [subject]);
      }
    }
  }
}

/** Runs of the observer demo with concrete stores and customers. */
module ObserverScenarios {
  import opened Common
  import opened Observer

  /** One customer watching one store. */
  lemma BroadcastOneOne(c: Customer, store: Store, pending: map<Store, string>)
    requires c.stores == Some([store])
    ensures Broadcast([c], pending) == [ReportLine(c.name, store.name, Seen(store, pending))]
  {
    BroadcastSnoc([], c, pending);
    assert [] + [c] == [c];
    ReportsAt(c.name, [store], pending);
  }

  /** The wiring of the demo: the registrations and the customers' own
      store lists are made by separate calls. */
  method WireDemo() returns (apple: Store, android: Store, marco: Customer, mario: Customer, lorenzo: Customer)
    ensures fresh(apple) && fresh(android) && fresh(marco) && fresh(mario) && fresh(lorenzo)
    ensures apple != android && marco != mario && marco != lorenzo && mario != lorenzo
    ensures apple.name == "Apple store" && android.name == "Android store"
    ensures marco.name == "Marco" && mario.name == "Mario" && lorenzo.name == "Lorenzo"
    ensures apple.customers == [marco, mario, lorenzo] && android.customers == [marco]
    ensures marco.stores == Some([apple, android])
    ensures mario.stores == Some([apple]) && lorenzo.stores == Some([apple])
    ensures apple.Idle() && android.Idle() && apple.Valid() && android.Valid()
  {
    apple, android, marco, mario, lorenzo := RegisterDemo();
    marco.AddSubject(apple);
    marco.AddSubject(android);
    assert marco.stores.value == [apple, android];
    mario.AddSubject(apple);
    lorenzo.AddSubject(apple);
  }

  /** The first half of the wiring: the stores and their registrations. */
  method RegisterDemo() returns (apple: Store, android: Store, marco: Customer, mario: Customer, lorenzo: Customer)
    ensures fresh(apple) && fresh(android) && fresh(marco) && fresh(mario) && fresh(lorenzo)
    ensures apple != android && marco != mario && marco != lorenzo && mario != lorenzo
    ensures apple.name == "Apple store" && android.name == "Android store"
    ensures marco.name == "Marco" && mario.name == "Mario" && lorenzo.name == "Lorenzo"
    ensures apple.customers == [marco, mario, lorenzo] && android.customers == [marco]
    ensures marco.stores == None && mario.stores == None && lorenzo.stores == None
    ensures apple.Idle() && android.Idle() && apple.Valid() && android.Valid()
  {
    apple := new Store("Apple store");
    android := new Store("Android store");
    marco := new Customer("Marco");
    mario := new Customer("Mario");
    lorenzo := new Customer("Lorenzo");
    apple.Register(marco);
    assert apple.customers == [marco];
    apple.Register(mario);
    assert apple.customers == [marco, mario];
    apple.Register(lorenzo);
    assert apple.customers == [marco, mario, lorenzo];
    android.Register(marco);
  }

  /** What Marco prints for his two stores when each shows `a` and `b`. */
  lemma MarcoReports(apple: Store, android: Store, pending: map<Store, string>, a: Option<string>, b: Option<string>)
    requires apple.name == "Apple store" && android.name == "Android store"
    requires Seen(apple, pending) == a && Seen(android, pending) == b
    ensures Reports("Marco", [apple, android], pending)
      == [ReportLine("Marco", "Apple store", a), ReportLine("Marco", "Android store", b)]
  {
    ReportsAt("Marco", [apple, android], pending);
  }

  /** The Apple store's broadcast of `m` to its three customers. */
  lemma AppleBroadcast(apple: Store, android: Store, marco: Customer, mario: Customer, lorenzo: Customer, m: string)
    requires apple != android && apple.name == "Apple store" && android.name == "Android store"
    requires marco.name == "Marco" && mario.name == "Mario" && lorenzo.name == "Lorenzo"
    requires marco.stores == Some([apple, android])
    requires mario.stores == Some([apple]) && lorenzo.stores == Some([apple])
    requires android.message == None
    ensures Broadcast([marco, mario, lorenzo], map[apple := m])
      == [ ReportLine("Marco", "Apple store", Some(m)), ReportLine("Marco", "Android store", None)
         , ReportLine("Mario", "Apple store", Some(m)), ReportLine("Lorenzo", "Apple store", Some(m)) ]
  {
    var pending := map[apple := m];
    MarcoReports(apple, android, pending, Some(m), None);
    ReportsAt("Mario", [apple], pending);
    ReportsAt("Lorenzo", [apple], pending);
    BroadcastSnoc([], marco, pending);
    BroadcastSnoc([marco], mario, pending);
    BroadcastSnoc([marco, mario], lorenzo, pending);
    assert [] + [marco] == [marco] && [marco] + [mario] == [marco, mario];
    assert [marco, mario] + [lorenzo] == [marco, mario, lorenzo];
  }

  /** The first half of the demo's run: Marco checks for updates, then the
      Apple store posts. */
  method FirstHalf() returns (apple: Store, android: Store, marco: Customer, trace: seq<string>)
    ensures fresh(apple) && fresh(android) && fresh(marco)
    ensures apple != android && apple.name == "Apple store" && android.name == "Android store"
    ensures marco.name == "Marco" && marco.stores == Some([apple, android])
    ensures android.customers == [marco] && apple.Idle() && android.Idle()
    ensures trace ==
      [ ReportLine("Marco", "Apple store", None), ReportLine("Marco", "Android store", None)
      , "---"
      , PostedLine("Apple store", "The new iPhone is here!")
      , ReportLine("Marco", "Apple store", Some("The new iPhone is here!"))
      , ReportLine("Marco", "Android store", None)
      , ReportLine("Mario", "Apple store", Some("The new iPhone is here!"))
      , ReportLine("Lorenzo", "Apple store", Some("The new iPhone is here!"))
      ]
  {
    var mario, lorenzo;
    apple, android, marco, mario, lorenzo := WireDemo();
    var before := marco.Update();
    MarcoReports(apple, android, map[], None, None);
    var iphone := ApplePosts(apple, android, marco, mario, lorenzo);
    trace := before + ["---"] + iphone;
  }

  /** The Apple store posts the iPhone news to its three customers. */
  method ApplePosts(apple: Store, android: Store, marco: Customer, mario: Customer, lorenzo: Customer)
    returns (trace: seq<string>)
    requires apple != android && apple.name == "Apple store" && android.name == "Android store"
    requires marco.name == "Marco" && mario.name == "Mario" && lorenzo.name == "Lorenzo"
    requires apple.customers == [marco, mario, lorenzo]
    requires marco.stores == Some([apple, android])
    requires mario.stores == Some([apple]) && lorenzo.stores == Some([apple])
    requires android.message == None
    modifies apple
    ensures apple.customers == old(apple.customers) && apple.Idle()
    ensures trace ==
      [ PostedLine("Apple store", "The new iPhone is here!")
      , ReportLine("Marco", "Apple store", Some("The new iPhone is here!"))
      , ReportLine("Marco", "Android store", None)
      , ReportLine("Mario", "Apple store", Some("The new iPhone is here!"))
      , ReportLine("Lorenzo", "Apple store", Some("The new iPhone is here!"))
      ]
  {
    trace := apple.PostMessage("The new iPhone is here!");
    AppleBroadcast(apple, android, marco, mario, lorenzo, "The new iPhone is here!");
  }

  /** The demo's own run (its second half is below). Marco is woken by the
      Android store too, and then reports both of his stores; "---" are the
      demo's separators. */
  method ApplicationRun() returns (trace: seq<string>)
    ensures trace ==
      [ ReportLine("Marco", "Apple store", None), ReportLine("Marco", "Android store", None)
      , "---"
      , PostedLine("Apple store", "The new iPhone is here!")
      , ReportLine("Marco", "Apple store", Some("The new iPhone is here!"))
      , ReportLine("Marco", "Android store", None)
      , ReportLine("Mario", "Apple store", Some("The new iPhone is here!"))
      , ReportLine("Lorenzo", "Apple store", Some("The new iPhone is here!"))
      , "---"
      , PostedLine("Android store", "The new Google Pixel is here!")
      , ReportLine("Marco", "Apple store", None)
      , ReportLine("Marco", "Android store", Some("The new Google Pixel is here!"))
      , "---"
      , ReportLine("Marco", "Apple store", None), ReportLine("Marco", "Android store", None)
      ]
  {
    var apple, android, marco, first := FirstHalf();
    var m2 := "The new Google Pixel is here!";
    var pixel := android.PostMessage(m2);
    MarcoReports(apple, android, map[android := m2], None, Some(m2));
    BroadcastSnoc([], marco, map[android := m2]);
    assert [] + [marco] == [marco];
    var after := marco.Update();
    MarcoReports(apple, android, map[], None, None);
    trace := first + ["---"] + pixel + ["---"] + after;
  }

  lemma Pair<T>(a: T, b: T)
    ensures [a] + [b] == [a, b]
  {
  }

  /** A new store and a new customer whose list holds just that store; the
      customer is not registered. */
  method Watching(storeName: string, customerName: string) returns (store: Store, c: Customer)
    ensures fresh(store) && fresh(c)
    ensures store.name == storeName && c.name == customerName
    ensures store.customers == [] && c.stores == Some([store])
    ensures store.Idle() && store.Valid()
  {
    store := new Store(storeName);
    c := new Customer(customerName);
    c.AddSubject(store);
  }

  /** Registering the same customer twice still wakes it once per broadcast. */
  method RegisterTwiceWakesOnce() returns (trace: seq<string>)
    ensures trace == [PostedLine("S", "m"), ReportLine("X", "S", Some("m"))]
  {
    var store, x := Watching("S", "X");
    store.Register(x);
    store.Register(x);
    assert store.customers == [x];
    trace := store.PostMessage("m");
    BroadcastOneOne(x, store, map[store := "m"]);
  }

  /** Two customers watch a store and register with it, in that order. */
  method RegisterTwo() returns (store: Store, x: Customer, y: Customer)
    ensures fresh(store) && fresh(x) && fresh(y) && x != y
    ensures store.name == "S" && y.name == "Y"
    ensures store.customers == [x, y] && y.stores == Some([store])
    ensures store.Idle() && store.Valid()
  {
    store, x := Watching("S", "X");
    y := new Customer("Y");
    y.AddSubject(store);
    store.Register(x);
    store.Register(y);
  }

  /** A customer unregistered before the post is not woken; the other one is. */
  method UnregisteredIsNotWoken() returns (trace: seq<string>)
    ensures trace == [PostedLine("S", "m"), ReportLine("Y", "S", Some("m"))]
  {
    var store, x, y := RegisterTwo();
    store.Unregister(x);
    RemoveFirstHead(x, [y]);
    assert store.customers == [y];
    assert Wired([y]);
    trace := store.PostMessage("m");
    BroadcastOneOne(y, store, map[store := "m"]);
    assert Broadcast(store.customers, map[store := "m"]) == [ReportLine("Y", "S", Some("m"))];
    Pair(PostedLine("S", "m"), ReportLine("Y", "S", Some("m")));
  }

  /** Adding a store to a customer's list does not register the customer:
      the post wakes nobody, and a later update finds the slot empty again. */
  method WatchingIsNotRegistering() returns (trace: seq<string>)
    ensures trace == [PostedLine("S", "m"), ReportLine("X", "S", None)]
  {
    var store, x := Watching("S", "X");
    var posted := store.PostMessage("m");
    var later := x.Update();
    ReportsAt("X", [store], map[]);
    trace := posted + later;
  }

  /** A store added twice to a customer's list is queried, and reported,
      twice per update. */
  method AddSubjectTwiceReportsTwice() returns (trace: seq<string>)
    ensures trace == [PostedLine("S", "m"), ReportLine("X", "S", Some("m")), ReportLine("X", "S", Some("m"))]
  {
    var store, x := Watching("S", "X");
    x.AddSubject(store);
    Pair(store, store);
    assert x.stores == Some([store, store]);
    store.Register(x);
    assert store.customers == [x];
    trace := store.PostMessage("m");
    BroadcastOneTwice(x, store, map[store := "m"]);
  }

  /** A customer whose list holds the same store twice reports it twice. */
  lemma BroadcastOneTwice(c: Customer, store: Store, pending: map<Store, string>)
    requires c.stores == Some([store, store])
    ensures Broadcast([c], pending) == [ReportLine(c.name, store.name, Seen(store, pending)), ReportLine(c.name, store.name, Seen(store, pending))]
  {
    BroadcastSnoc([], c, pending);
    assert [] + [c] == [c];
    ReportsAt(c.name, [store, store], pending);
  }
}
