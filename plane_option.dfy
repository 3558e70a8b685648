/**
 * The game settings object of the client (js/Option.js): the four seats of
 * the board, each a color and who plays it, and the online-mode switch that
 * gives the local player the seat of the color the server assigned.
 */
module PlaneOptions {
  import opened Wrappers

  /** Who plays a seat: a local human, nobody, a seat that has won, or the computer. */
  datatype SeatState = Normal | Close | Win | Computer

  /** A `PLANEUSER` record: a seat's color and its state. */
  datatype PlaneUser = PlaneUser(color: string, state: SeatState)

  /** The seats every settings object starts with: red for the human, the rest for the computer. */
  function InitialUserList(): (seats: seq<PlaneUser>)
    ensures |seats| == 4 && CountNormal(seats) == 1
    ensures forall i :: 0 <= i < |seats| ==> seats[i].state == Normal || seats[i].state == Computer
  {
    [PlaneUser("red", Normal), PlaneUser("blue", Computer), PlaneUser("yellow", Computer), PlaneUser("green", Computer)]
  }

  predicate DistinctColors(seats: seq<PlaneUser>)
  {
    forall i, j :: 0 <= i < j < |seats| ==> seats[i].color != seats[j].color
  }

  predicate HasColor(seats: seq<PlaneUser>, c: string)
  {
    exists i :: 0 <= i < |seats| && seats[i].color == c
  }

  /**
   * The state online mode gives a seat: the player's own color is the local
   * human, blue and yellow are kept for the computer, every other seat is
   * closed. `playerColor` is None when the color the client received was
   * undefined.
   */
  function OnlineState(color: string, playerColor: Option<string>): (s: SeatState)
    ensures s == Normal <==> playerColor == Some(color)
    ensures s == Computer <==> playerColor != Some(color) && (color == "blue" || color == "yellow")
    ensures s != Win
  {
    if Some(color) != playerColor then
      if color == "blue" || color == "yellow" then Computer else Close
    else
      Normal
  }

  /** Every seat with its online state; colors, order and length are kept. */
  function OnlineSeats(seats: seq<PlaneUser>, playerColor: Option<string>): (r: seq<PlaneUser>)
    ensures |r| == |seats|
    ensures forall i :: 0 <= i < |r| ==> r[i].color == seats[i].color && r[i].state == OnlineState(seats[i].color, playerColor)
  {
    seq(|seats|, i requires 0 <= i < |seats| => seats[i].(state := OnlineState(seats[i].color, playerColor)))
  }

  /** The number of seats played by the local human. */
  function CountNormal(seats: seq<PlaneUser>): nat
  {
    if seats == [] then 0 else (if seats[0].state == Normal then 1 else 0) + CountNormal(seats[1..])
  }

  /** With distinct colors, online mode gives the local human one seat if the palette has its color, else none. */
  lemma {:induction false} OnlineNormalCount(seats: seq<PlaneUser>, playerColor: Option<string>)
    requires DistinctColors(seats)
    ensures CountNormal(OnlineSeats(seats, playerColor)) == if playerColor.Some? && HasColor(seats, playerColor.value) then 1 else 0
    decreases |seats|
  {
    if seats != [] {
      var r := OnlineSeats(seats, playerColor);
      var rest := seats[1..];
      assert r[1..] == OnlineSeats(rest, playerColor);
      assert DistinctColors(rest) by {
        forall i, j | 0 <= i < j < |rest| ensures rest[i].color != rest[j].color {
          assert rest[i] == seats[i + 1] && rest[j] == seats[j + 1];
        }
      }
      OnlineNormalCount(rest, playerColor);
      if playerColor.Some? {
        var c := playerColor.value;
        if seats[0].color == c {
          assert HasColor(seats, c);
          assert !HasColor(rest, c) by {
            forall i | 0 <= i < |rest| ensures rest[i].color != c {
              assert rest[i] == seats[i + 1];
            }
          }
        } else {
          assert HasColor(seats, c) <==> HasColor(rest, c) by {
            if HasColor(seats, c) {
              var i :| 0 <= i < |seats| && seats[i].color == c;
              assert rest[i - 1].color == c;
            }
            if HasColor(rest, c) {
              var i :| 0 <= i < |rest| && rest[i].color == c;
              assert seats[i + 1].color == c;
            }
          }
        }
      }
    }
  }

  /** The starting seats have the four palette colors in order, each once. */
  lemma InitialPalette()
    ensures |InitialUserList()| == 4 && DistinctColors(InitialUserList())
    ensures forall c :: HasColor(InitialUserList(), c) <==> c == "red" || c == "blue" || c == "yellow" || c == "green"
  {
    var seats := InitialUserList();
    forall c ensures HasColor(seats, c) <==> c == "red" || c == "blue" || c == "yellow" || c == "green" {
      if c == "red" { assert seats[0].color == c; }
      if c == "blue" { assert seats[1].color == c; }
      if c == "yellow" { assert seats[2].color == c; }
      if c == "green" { assert seats[3].color == c; }
    }
  }

  /** For a palette color, online mode leaves exactly one seat to the local human. */
  lemma ExactlyOneHumanSeat(c: string)
    requires c == "red" || c == "blue" || c == "yellow" || c == "green"
    ensures CountNormal(OnlineSeats(InitialUserList(), Some(c))) == 1
  {
    InitialPalette();
    OnlineNormalCount(InitialUserList(), Some(c));
  }

  /**
   * The joining client calls setOnlineMode with the `color` of its entry in
   * the server's player list, which carries no color: with an undefined color
   * nobody plays locally, red and green are closed and blue and yellow are
   * left to the computer.
   */
  lemma UndefinedColorLeavesNoHumanSeat()
    ensures OnlineSeats(InitialUserList(), None) ==
      [PlaneUser("red", Close), PlaneUser("blue", Computer), PlaneUser("yellow", Computer), PlaneUser("green", Close)]
    ensures CountNormal(OnlineSeats(InitialUserList(), None)) == 0
  {
    InitialPalette();
    OnlineNormalCount(InitialUserList(), None);
  }

  /** The settings object. */
  class PlaneOption {
    const userList: array<PlaneUser>
    var difficulty: string
    var currentUser: string
    var backgroundMusic: bool
    var gameMusic: bool
    var isOnlineMode: bool
    var playerColor: Option<string>

    constructor ()
      ensures fresh(userList) && userList[..] == InitialUserList()
      ensures difficulty == "normal" && currentUser == "red"
      ensures backgroundMusic && gameMusic
      ensures !isOnlineMode && playerColor == Some("red")
    {
      userList := new PlaneUser[4] [PlaneUser("red", Normal), PlaneUser("blue", Computer), PlaneUser("yellow", Computer), PlaneUser("green", Computer)];
      difficulty := "normal";
      currentUser := "red";
      backgroundMusic := true;
      gameMusic := true;
      isOnlineMode := false;
      playerColor := Some("red");
    }

    /** Switches to online mode with the color the server assigned; nothing else changes. */
    method SetOnlineMode(color: Option<string>)
      modifies this
      ensures isOnlineMode && playerColor == color
      ensures difficulty == old(difficulty) && currentUser == old(currentUser)
      ensures backgroundMusic == old(backgroundMusic) && gameMusic == old(gameMusic)
      ensures unchanged(userList)
    {
      isOnlineMode := true;
      playerColor := color;
    }

    /** The online branch of setUserList: rewrites every seat's state from `playerColor`, in place. */
    method SetUserList()
      requires isOnlineMode
      modifies userList
      ensures userList[..] == OnlineSeats(old(userList[..]), playerColor)
    {
      var i := 0;
      while i < userList.Length
        invariant 0 <= i <= userList.Length
        invariant forall k :: 0 <= k < i ==> userList[k] == old(userList[k]).(state := OnlineState(old(userList[k]).color, playerColor))
        invariant forall k :: i <= k < userList.Length ==> userList[k] == old(userList[k])
      {
        if Some(userList[i].color) != playerColor {
          if userList[i].color == "blue" || userList[i].color == "yellow" {
            userList[i] := userList[i].(state := Computer);
          } else {
            userList[i] := userList[i].(state := Close);
          }
        } else {
          userList[i] := userList[i].(state := Normal);
        }
        i := i + 1;
      }
    }
  }

  /**
   * A client that goes online with a palette color: a fresh settings object,
   * setOnlineMode with that color, then setUserList, leaves exactly one seat
   * to the local human.
   */
  method GoOnline(c: string) returns (option: PlaneOption)
    requires c == "red" || c == "blue" || c == "yellow" || c == "green"
    ensures fresh(option) && fresh(option.userList)
    ensures option.isOnlineMode && option.playerColor == Some(c)
    ensures option.userList[..] == OnlineSeats(InitialUserList(), Some(c))
    ensures CountNormal(option.userList[..]) == 1
  {
    option := new PlaneOption();
    option.SetOnlineMode(Some(c));
    option.SetUserList();
    ExactlyOneHumanSeat(c);
  }
}
