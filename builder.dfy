/** The house builder: a mutable house with default features, a builder
    whose fluent calls set one feature each on the house in progress and
    which hands that house out and starts a new one, and a director that
    builds houses with a pool through one shared builder. */
module Builder {
  import opened Common

  /** The five fields of a house, as one value. */
  datatype Features = Features(windows: int, rooms: int, doors: int, garage: bool, pool: bool)

  /** What a new house has: 4 windows, 2 rooms, 1 door, no garage, no
      pool. */
  const Default := Features(4, 2, 1, false, false)

  /** House.toString. */
  function Describe(f: Features): string
  {
    "House [numberOfWindows=" + (IntToString(f.windows)
      + (", numberOfRooms=" + (IntToString(f.rooms)
      + (", numberOfDoors=" + (IntToString(f.doors)
      + (", hasGarage=" + (BoolToString(f.garage)
      + (", hasPool=" + (BoolToString(f.pool) + "]")))))))))
  }

  /** toString shows every field: two houses print alike only when all
      five fields agree. */
  lemma DescribeInjective(f: Features, g: Features)
    requires Describe(f) == Describe(g)
    ensures f == g
  {
    var poolF, poolG := ", hasPool=" + (BoolToString(f.pool) + "]"), ", hasPool=" + (BoolToString(g.pool) + "]");
    var garageF, garageG := ", hasGarage=" + (BoolToString(f.garage) + poolF), ", hasGarage=" + (BoolToString(g.garage) + poolG);
    var doorsF, doorsG := ", numberOfDoors=" + (IntToString(f.doors) + garageF), ", numberOfDoors=" + (IntToString(g.doors) + garageG);
    var roomsF, roomsG := ", numberOfRooms=" + (IntToString(f.rooms) + doorsF), ", numberOfRooms=" + (IntToString(g.rooms) + doorsG);
    IntToStringChars(f.windows);
    IntToStringChars(g.windows);
    IntToStringChars(f.rooms);
    IntToStringChars(g.rooms);
    IntToStringChars(f.doors);
    IntToStringChars(g.doors);
    CancelPrefix("House [numberOfWindows=", IntToString(f.windows) + roomsF, IntToString(g.windows) + roomsG);
    SplitNumeral(IntToString(f.windows), roomsF, IntToString(g.windows), roomsG);
    CancelPrefix(", numberOfRooms=", IntToString(f.rooms) + doorsF, IntToString(g.rooms) + doorsG);
    SplitNumeral(IntToString(f.rooms), doorsF, IntToString(g.rooms), doorsG);
    CancelPrefix(", numberOfDoors=", IntToString(f.doors) + garageF, IntToString(g.doors) + garageG);
    SplitNumeral(IntToString(f.doors), garageF, IntToString(g.doors), garageG);
    CancelPrefix(", hasGarage=", BoolToString(f.garage) + poolF, BoolToString(g.garage) + poolG);
    SplitBool(f.garage, poolF, g.garage, poolG);
    CancelPrefix(", hasPool=", BoolToString(f.pool) + "]", BoolToString(g.pool) + "]");
    SplitBool(f.pool, "]", g.pool, "]");
    IntToStringInjective(f.windows, g.windows);
    IntToStringInjective(f.rooms, g.rooms);
    IntToStringInjective(f.doors, g.doors);
  }

  class House {
    var windows: int
    var rooms: int
    var doors: int
    var garage: bool
    var pool: bool

    constructor ()
      ensures Current() == Default
    {
      windows, rooms, doors, garage, pool := 4, 2, 1, false, false;
    }

    function Current(): Features
      reads this
    {
      Features(windows, rooms, doors, garage, pool)
    }

    method SetNumberOfWindows(n: int)
      modifies this
      ensures Current() == old(Current()).(windows := n)
    {
      windows := n;
    }

    method SetNumberOfRooms(n: int)
      modifies this
      ensures Current() == old(Current()).(rooms := n)
    {
      rooms := n;
    }

    method SetNumberOfDoors(n: int)
      modifies this
      ensures Current() == old(Current()).(doors := n)
    {
      doors := n;
    }

    method SetHasGarage(b: bool)
      modifies this
      ensures Current() == old(Current()).(garage := b)
    {
      garage := b;
    }

    method SetHasPool(b: bool)
      modifies this
      ensures Current() == old(Current()).(pool := b)
    {
      pool := b;
    }

    /** toString: the text DescribeInjective is about. */
    function ToString(): string
      reads this
    {
      Describe(Current())
    }
  }

  class HouseBuilder {
    /** The house in progress. */
    var house: House

    constructor ()
      ensures fresh(house) && house.Current() == Default
    {
      house := new House();
    }

    method BuildWindows(n: int) returns (b: HouseBuilder)
      modifies house
      ensures b == this && house == old(house)
      ensures house.Current() == old(house.Current()).(windows := n)
    {
      house.SetNumberOfWindows(n);
      b := this;
    }

    method BuildRooms(n: int) returns (b: HouseBuilder)
      modifies house
      ensures b == this && house == old(house)
      ensures house.Current() == old(house.Current()).(rooms := n)
    {
      house.SetNumberOfRooms(n);
      b := this;
    }

    method BuildDoors(n: int) returns (b: HouseBuilder)
      modifies house
      ensures b == this && house == old(house)
      ensures house.Current() == old(house.Current()).(doors := n)
    {
      house.SetNumberOfDoors(n);
      b := this;
    }

    /** A pool can be added, never taken away. */
    method BuildPool() returns (b: HouseBuilder)
      modifies house
      ensures b == this && house == old(house)
      ensures house.Current() == old(house.Current()).(pool := true)
    {
      house.SetHasPool(true);
      b := this;
    }

    /** A garage can be added, never taken away. */
    method BuildGarage() returns (b: HouseBuilder)
      modifies house
      ensures b == this && house == old(house)
      ensures house.Current() == old(house.Current()).(garage := true)
    {
      house.SetHasGarage(true);
      b := this;
    }

    /** Discards the house in progress for a new default one. */
    method Reset()
      modifies this
      ensures fresh(house) && house.Current() == Default
    {
      house := new House();
    }

    /** Hands out the house in progress, untouched, and starts a new one:
        nothing set so far carries over to the next house. */
    method GetBuiltHouse() returns (h: House)
      modifies this
      ensures h == old(house) && h.Current() == old(house.Current())
      ensures fresh(house) && house.Current() == Default
    {
      h := house;
      Reset();
    }
  }

  /** The director. Its builder is a static field shared by every
      director; here each director is handed that one builder. */
  class HouseDirector {
    const builder: HouseBuilder

    constructor (shared: HouseBuilder)
      ensures builder == shared
    {
      builder := shared;
    }

    /** A house with a pool and otherwise what the builder had in
        progress, which is the default whenever the builder was only used
        through directors. */
    method GetHouseWithAPool() returns (h: House)
      modifies builder, builder.house
      ensures h == old(builder.house) && h.Current() == old(builder.house.Current()).(pool := true)
      ensures fresh(builder.house) && builder.house.Current() == Default
    {
      var b := builder.BuildPool();
      h := b.GetBuiltHouse();
    }
  }
}

module BuilderScenarios {
  import opened Builder

  /** The demo: a default house, one with 8 windows, 10 doors and a
      garage, one with 50 windows, 20 rooms, 10 doors and a pool (and,
      since nothing leaks between builds, no garage). */
  method Application() returns (first: Features, second: Features, third: Features)
    ensures first == Default
    ensures second == Features(8, 2, 10, true, false)
    ensures third == Features(50, 20, 10, false, true)
  {
    var builder := new HouseBuilder();
    var defaultHouse := builder.GetBuiltHouse();
    var b := builder.BuildWindows(8);
    b := b.BuildDoors(10);
    b := b.BuildGarage();
    var withGarage := b.GetBuiltHouse();
    b := builder.BuildWindows(50);
    b := b.BuildRooms(20);
    b := b.BuildDoors(10);
    b := b.BuildPool();
    var bigger := b.GetBuiltHouse();
    first, second, third := defaultHouse.Current(), withGarage.Current(), bigger.Current();
  }

  /** Two directors over the shared builder: each call gives a new house
      with a pool and the defaults otherwise. */
  method DirectorTwice() returns (h1: House, h2: House)
    ensures h1 != h2
    ensures h1.Current() == Default.(pool := true) && h2.Current() == Default.(pool := true)
  {
    var shared := new HouseBuilder();
    var d1 := new HouseDirector(shared);
    var d2 := new HouseDirector(shared);
    h1 := d1.GetHouseWithAPool();
    h2 := d2.GetHouseWithAPool();
  }
}
