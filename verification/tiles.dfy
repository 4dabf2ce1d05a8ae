/**
  Road auto-tiling on the grid (`Tile`): a road piece is chosen from a 4-bit
  mask of which neighbouring tiles hold a road, and placing or removing content
  re-picks the piece of the tile itself and of its road neighbours.

  The grid is one object owning the content of every tile: an absent entry is
  a tile whose `Content` is null. The neighbour lookup of `GridManager` is not
  part of this model and is a constant function from a tile to its neighbours,
  each with the direction bit it lies in.
*/
module Tiles {
  import opened Wrappers

  /** `Road.RoadType`. */
  datatype RoadType = CROSS | STRAIGHT | CORNER | END | TJUNC

  /** A road piece and its rotation in quarter turns. */
  datatype Piece = Piece(road: RoadType, rotation: int)

  /** `Tile.GridPosition`. */
  datatype Coord = Coord(x: int, y: int)

  /** A neighbouring tile and the direction flag it lies in. */
  datatype Neighbour = Neighbour(tile: Coord, inDirection: int)

  /** What a tile can host: a road or a building. */
  datatype Content<B> = Road(piece: Piece) | Built(building: B)

  /**
    `Tile.GetFittingPiece`: the piece for a connection flag. Flags outside
    0..15 throw, which is `None` here.
  */
  function FittingPiece(flag: int): (r: Option<Piece>)
    ensures r.Some? <==> 0 <= flag < 16
    ensures r.Some? ==> 0 <= r.value.rotation < 4
  {
    match flag
    case 0 => Some(Piece(CROSS, 0))
    case 1 => Some(Piece(END, 0))
    case 2 => Some(Piece(END, 1))
    case 3 => Some(Piece(CORNER, 0))
    case 4 => Some(Piece(END, 2))
    case 5 => Some(Piece(STRAIGHT, 0))
    case 6 => Some(Piece(CORNER, 1))
    case 7 => Some(Piece(TJUNC, 0))
    case 8 => Some(Piece(END, 3))
    case 9 => Some(Piece(CORNER, 3))
    case 10 => Some(Piece(STRAIGHT, 1))
    case 11 => Some(Piece(TJUNC, 3))
    case 12 => Some(Piece(CORNER, 2))
    case 13 => Some(Piece(TJUNC, 2))
    case 14 => Some(Piece(TJUNC, 1))
    case 15 => Some(Piece(CROSS, 0))
    case _ => None
  }

  /** The direction flag a quarter turn stands for: 1, 2, 4, 8 for 0, 1, 2, 3. */
  function Bit(rotation: int): int
  {
    match rotation % 4
    case 0 => 1
    case 1 => 2
    case 2 => 4
    case _ => 8
  }

  /**
    The directions a piece connects to, as a flag: an end opens toward its
    rotation, a corner toward its rotation and the next quarter turn, a straight
    toward its rotation and the opposite one, a T-junction everywhere but the
    quarter turn before its rotation, and a cross everywhere.
  */
  function OpenSides(p: Piece): int
  {
    match p.road
    case END => Bit(p.rotation)
    case CORNER => Bit(p.rotation) + Bit(p.rotation + 1)
    case STRAIGHT => Bit(p.rotation) + Bit(p.rotation + 2)
    case TJUNC => 15 - Bit(p.rotation + 3)
    case CROSS => 15
  }

  /** The number of set bits of a 4-bit flag, taking off the bits 8, 4 and 2 in turn. */
  function PopCount(flag: int): int
  {
    var b8 := if flag >= 8 then 1 else 0;
    var b4 := if flag - 8 * b8 >= 4 then 1 else 0;
    var b2 := if flag - 8 * b8 - 4 * b4 >= 2 then 1 else 0;
    b8 + b4 + b2 + (flag - 8 * b8 - 4 * b4 - 2 * b2)
  }

  /**
    The table picks, for every non-empty flag, the piece whose open sides are
    exactly the flag; the empty flag degenerates to an unrotated cross, like
    the full one, and a straight is never rotated by more than a quarter turn.
  */
  lemma FittingPieceConnects(flag: int)
    requires 0 <= flag < 16
    ensures flag != 0 ==> OpenSides(FittingPiece(flag).value) == flag
    ensures flag == 0 ==> FittingPiece(flag).value == Piece(CROSS, 0)
    ensures flag == 15 ==> FittingPiece(flag).value == Piece(CROSS, 0)
    ensures FittingPiece(flag).value.road == STRAIGHT ==> FittingPiece(flag).value.rotation < 2
  {
  }

  /**
    The piece type is fixed by the number of connections of the flag: the
    empty and the full flag give a cross, one connection an end, two a straight
    or a corner, three a T-junction.
  */
  lemma FittingPieceKind(flag: int)
    requires 0 <= flag < 16
    ensures var p := FittingPiece(flag).value;
            && (PopCount(flag) == 0 || PopCount(flag) == 4 <==> p.road == CROSS)
            && (PopCount(flag) == 1 <==> p.road == END)
            && (PopCount(flag) == 2 <==> p.road == STRAIGHT || p.road == CORNER)
            && (PopCount(flag) == 3 <==> p.road == TJUNC)
  {
  }

  /** The bits 1, 2, 4, 8 of the flag that are in `s`, added up. */
  function BitSum(s: set<int>): (n: int)
    ensures 0 <= n < 16
  {
    (if 1 in s then 1 else 0) + (if 2 in s then 2 else 0) + (if 4 in s then 4 else 0) + (if 8 in s then 8 else 0)
  }

  /** Each direction is one bit of the flag: bit `d` of `BitSum(s)` is set iff `d` is in `s`. */
  lemma BitSumBit(s: set<int>, d: int)
    requires d == 1 || d == 2 || d == 4 || d == 8
    ensures BitSum(s) / d % 2 == 1 <==> d in s
  {
  }

  /** Each neighbour lies in its own direction, one of the four flags 1, 2, 4, 8. */
  predicate DistinctBits(ns: seq<Neighbour>)
  {
    && (forall i :: 0 <= i < |ns| ==> ns[i].inDirection in {1, 2, 4, 8})
    && (forall i, j :: 0 <= i < j < |ns| ==> ns[i].inDirection != ns[j].inDirection)
  }

  /** The tiles that hold a road. */
  function RoadsOf<B>(m: map<Coord, Content<B>>): set<Coord>
  {
    set t | t in m && m[t].Road?
  }

  /** The sum `GetRoadConnectionFlag` accumulates: the direction of every neighbour holding a road. */
  function RoadBits(roads: set<Coord>, ns: seq<Neighbour>): int
  {
    if ns == [] then 0
    else RoadBits(roads, ns[..|ns| - 1]) + (if ns[|ns| - 1].tile in roads then ns[|ns| - 1].inDirection else 0)
  }

  /** The directions in which a neighbour holds a road. */
  function RoadDirections(roads: set<Coord>, ns: seq<Neighbour>): set<int>
  {
    set i | 0 <= i < |ns| && ns[i].tile in roads :: ns[i].inDirection
  }

  /** The neighbour tiles that hold a road. */
  function RoadTiles(roads: set<Coord>, ns: seq<Neighbour>): set<Coord>
  {
    if ns == [] then {}
    else RoadTiles(roads, ns[..|ns| - 1]) + (if ns[|ns| - 1].tile in roads then {ns[|ns| - 1].tile} else {})
  }

  /** The cast to `byte` of the accumulated sum: its low eight bits. */
  function ByteOf(x: int): int
  {
    x % 256
  }

  /** The connection flag of a tile with neighbours `ns`. */
  function ConnectionFlag(roads: set<Coord>, ns: seq<Neighbour>): int
  {
    ByteOf(RoadBits(roads, ns))
  }

  /**
    With one direction flag per neighbour, the connection flag is the mask of
    the directions holding a road: each such direction sets its own bit, and
    the flag lies in 0..15.
  */
  lemma {:induction false} ConnectionFlagIsMask(roads: set<Coord>, ns: seq<Neighbour>)
    requires DistinctBits(ns)
    ensures RoadBits(roads, ns) == BitSum(RoadDirections(roads, ns))
    ensures ConnectionFlag(roads, ns) == BitSum(RoadDirections(roads, ns))
    ensures 0 <= ConnectionFlag(roads, ns) < 16
  {
    if ns != [] {
      var front := ns[..|ns| - 1];
      var last := ns[|ns| - 1];
      assert DistinctBits(front) by {
        assert forall i :: 0 <= i < |front| ==> front[i] == ns[i];
      }
      ConnectionFlagIsMask(roads, front);
      var ds := RoadDirections(roads, front);
      assert last.inDirection !in ds by {
        assert forall i :: 0 <= i < |front| ==> front[i].inDirection == ns[i].inDirection != last.inDirection;
      }
      if last.tile in roads {
        assert RoadDirections(roads, ns) == ds + {last.inDirection} by {
          assert forall i :: 0 <= i < |front| ==> front[i] == ns[i];
        }
      } else {
        assert RoadDirections(roads, ns) == ds by {
          assert forall i :: 0 <= i < |front| ==> front[i] == ns[i];
        }
      }
    }
  }

  /**
    The piece `PickRoad` chooses for a tile with neighbours `ns`; with one
    direction flag per neighbour the lookup never throws.
  */
  function PieceFor(roads: set<Coord>, ns: seq<Neighbour>): Piece
    requires DistinctBits(ns)
  {
    ConnectionFlagIsMask(roads, ns);
    FittingPiece(ConnectionFlag(roads, ns)).value
  }

  /** A road with exactly one road neighbour becomes an end opening toward that neighbour. */
  lemma OneRoadNeighbourGivesEnd(roads: set<Coord>, ns: seq<Neighbour>, i: int)
    requires DistinctBits(ns) && 0 <= i < |ns| && ns[i].tile in roads
    requires forall j :: 0 <= j < |ns| && j != i ==> ns[j].tile !in roads
    ensures PieceFor(roads, ns).road == END
    ensures Bit(PieceFor(roads, ns).rotation) == ns[i].inDirection
  {
    ConnectionFlagIsMask(roads, ns);
    assert RoadDirections(roads, ns) == {ns[i].inDirection};
    FittingPieceConnects(ns[i].inDirection);
  }

  /** A road with a road on all four sides becomes a cross. */
  lemma FourRoadNeighboursGiveCross(roads: set<Coord>, ns: seq<Neighbour>)
    requires DistinctBits(ns) && |ns| == 4
    requires forall j :: 0 <= j < |ns| ==> ns[j].tile in roads
    ensures PieceFor(roads, ns) == Piece(CROSS, 0)
  {
    ConnectionFlagIsMask(roads, ns);
    assert 1 in RoadDirections(roads, ns) && 2 in RoadDirections(roads, ns)
        && 4 in RoadDirections(roads, ns) && 8 in RoadDirections(roads, ns) by {
      assert ns[0].tile in roads && ns[1].tile in roads && ns[2].tile in roads && ns[3].tile in roads;
    }
  }

  /** The grid of tiles and their content. */
  class Grid<B> {
    /** `GridManager.GetNeighboursFor`. */
    const neighbours: Coord -> seq<Neighbour>
    /** `Tile.Content` of every tile that has content. */
    var content: map<Coord, Content<B>>

    constructor (neighbours: Coord -> seq<Neighbour>)
      ensures this.neighbours == neighbours && content == map[]
    {
      this.neighbours := neighbours;
      content := map[];
    }

    /** The neighbour lookup gives every neighbour its own direction flag. */
    ghost predicate Valid()
    {
      forall t :: DistinctBits(neighbours(t))
    }

    /** `Tile.HasContent`. */
    predicate HasContent(t: Coord): (has: bool)
      reads this
      ensures has <==> t in content
    {
      t in content
    }

    /** `Tile.GetRoadConnectionFlag`: adds up the direction of every neighbour holding a road. */
    method GetRoadConnectionFlag(t: Coord) returns (flag: int)
      ensures flag == ConnectionFlag(RoadsOf(content), neighbours(t))
      ensures Valid() ==> flag == BitSum(RoadDirections(RoadsOf(content), neighbours(t)))
    {
      var ns := neighbours(t);
      var bitwiseFlag := 0;
      var i := 0;
      while i < |ns|
        invariant 0 <= i <= |ns|
        invariant bitwiseFlag == RoadBits(RoadsOf(content), ns[..i])
      {
        assert ns[..i + 1][..i] == ns[..i];
        if ns[i].tile in content && content[ns[i].tile].Road? {
          bitwiseFlag := bitwiseFlag + ns[i].inDirection;
        }
        i := i + 1;
      }
      assert ns[..i] == ns;
      flag := ByteOf(bitwiseFlag);
      if Valid() {
        ConnectionFlagIsMask(RoadsOf(content), ns);
      }
    }

    /** `Tile.PickRoad`: gives the road on `t` the piece that fits its neighbours. */
    method PickRoad(t: Coord)
      requires Valid() && t in content && content[t].Road?
      modifies this
      ensures content == old(content)[t := Road(PieceFor(old(RoadsOf(content)), neighbours(t)))]
      ensures RoadsOf(content) == old(RoadsOf(content))
    {
      var flag := GetRoadConnectionFlag(t);
      ConnectionFlagIsMask(RoadsOf(content), neighbours(t));
      var piece := FittingPiece(flag).value;
      content := content[t := Road(piece)];
    }

    /** `Tile.PickRoadForNeighbours`: re-picks every neighbour of `t` that holds a road, and no other tile. */
    method PickRoadForNeighbours(t: Coord)
      requires Valid()
      modifies this
      ensures content.Keys == old(content.Keys)
      ensures RoadsOf(content) == old(RoadsOf(content))
      ensures forall u :: u in content ==>
                content[u] == if u in RoadTiles(RoadsOf(content), neighbours(t))
                              then Road(PieceFor(RoadsOf(content), neighbours(u)))
                              else old(content)[u]
    {
      var roads := RoadsOf(content);
      var ns := neighbours(t);
      var i := 0;
      while i < |ns|
        invariant 0 <= i <= |ns|
        invariant content.Keys == old(content.Keys)
        invariant RoadsOf(content) == roads
        invariant forall u :: u in content ==>
                    content[u] == if u in RoadTiles(roads, ns[..i])
                                  then Road(PieceFor(roads, neighbours(u)))
                                  else old(content)[u]
      {
        assert ns[..i + 1][..i] == ns[..i];
        ghost var picked := RoadTiles(roads, ns[..i + 1]);
        assert picked == RoadTiles(roads, ns[..i]) + (if ns[i].tile in roads then {ns[i].tile} else {});
        label Before:
        if ns[i].tile in content && content[ns[i].tile].Road? {
          PickRoad(ns[i].tile);
        }
        forall u | u in content
          ensures content[u] == if u in picked then Road(PieceFor(roads, neighbours(u))) else old(content)[u]
        {
          if u != ns[i].tile {
            assert content[u] == old@Before(content)[u];
          }
        }
        i := i + 1;
      }
      assert ns[..i] == ns;
    }

    /**
      `Tile.PlaceContent`: a road gets the piece that fits, and so does every
      neighbour holding a road, one layer deep; a building touches no other tile.
    */
    method PlaceContent(t: Coord, toBePlaced: Content<B>)
      requires Valid()
      modifies this
      ensures toBePlaced.Built? ==> content == old(content)[t := toBePlaced]
      ensures toBePlaced.Road? ==>
                && content.Keys == old(content.Keys) + {t}
                && RoadsOf(content) == old(RoadsOf(content)) + {t}
                && content[t] == Road(PieceFor(RoadsOf(content), neighbours(t)))
                && forall u :: u in content && u != t ==>
                     content[u] == if u in RoadTiles(RoadsOf(content), neighbours(t))
                                   then Road(PieceFor(RoadsOf(content), neighbours(u)))
                                   else old(content)[u]
    {
      content := content[t := toBePlaced];
      if toBePlaced.Road? {
        assert RoadsOf(content) == old(RoadsOf(content)) + {t};
        PickRoad(t);
        PickRoadForNeighbours(t);
      }
    }

    /**
      `Tile.RemoveContent`: the tile becomes empty and every neighbour holding
      a road gets the piece that now fits; no other tile changes.
    */
    method RemoveContent(t: Coord)
      requires Valid()
      modifies this
      ensures !HasContent(t)
      ensures content.Keys == old(content.Keys) - {t}
      ensures RoadsOf(content) == old(RoadsOf(content)) - {t}
      ensures forall u :: u in content ==>
                content[u] == if u in RoadTiles(RoadsOf(content), neighbours(t))
                              then Road(PieceFor(RoadsOf(content), neighbours(u)))
                              else old(content)[u]
    {
      content := content - {t};
      assert RoadsOf(content) == old(RoadsOf(content)) - {t};
      PickRoadForNeighbours(t);
    }
  }
}
