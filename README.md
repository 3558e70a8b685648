# AeroplaneChess room server and online seats, in Dafny

This project models the matchmaking core of a two-player online aeroplane-chess game:

- **RoomManager** (`room_manager.dfy`, from `server.js`): the process-wide registry `rooms` from room code to room. A room has an ordered player list, a status (waiting or playing) and a capacity of 2. A dispatcher routes `create_room`, `join_room` and `start_game` to one handler each. Each handler changes the registry and hands messages to client connections.
  - Each handler is a pure function from the registry to an `Effect`: the new registry plus the messages sent, in order (`CreateRoomEffect`, `JoinRoomEffect`, `StartGameEffect`, `MessageEffect`).
  - The class `Server` holds `rooms` and an `outbox` of every message sent so far. Its methods follow the source step by step, with the `forEach` broadcasts written as a `while` loop (`SendToOpen`). Each method is proved equal to its effect function and keeps the registry invariant `RegistryValid`: at most two players, exactly one owner, the owner first and red, every joiner blue.
  - Connections are opaque ids compared by identity, which is how the source authorises `start_game`. Whether a connection is open (`readyState === OPEN`) is the set `open`, passed in with each request.
- **StaticFiles** (`static_files.dfy`, from `server.js`): the static server's choice of file and Content-Type. `'/'` is served as `./index.html`. The lower-cased extension is looked up in the fixed MIME table, and anything not in the table gets `application/octet-stream`. `ExtName` follows Node's posix `path.extname`, which the source calls.
- **PlaneOptions** (`plane_option.dfy`, from `js/Option.js`): the client's settings object. It holds the four seats (red, blue, yellow, green), `setOnlineMode`, and the online branch of `setUserList`. That branch rewrites each seat's state in place with a loop over the array.
- **Wrappers** (`wrappers.dfy`): an `Option` datatype. In `PlaneOptions`, `None` stands for JavaScript's `undefined`.

The model follows the code as written, including these behaviours a reader may not expect:

- `create_room` on a code that is already in use replaces that room. The replaced room may even be playing, and nothing rejects the collision.
- `start_game` does not look at the room's status. A second start by the owner sends `game_started` again (`StartGameTwiceRebroadcasts`).
- `join_room` does not look at the status either. A room started with one player can still be joined.
- The joiner is always blue.
- The player list sent to clients carries only `id` and `isOwner` (`Project`). The joining client reads `player.color` from that list (js/Network.js:237), so it calls `setOnlineMode` with `undefined`. `UndefinedColorLeavesNoHumanSeat` shows what online `setUserList` then does: no seat is left to the local human, red and green are closed, and blue and yellow go to the computer.

## Model

| member | source | states |
|---|---|---|
| `StaticFiles.ResolvePath` | server.js:12-17 | the root URL `/` is served from `./index.html`; every other URL from `.` followed by the URL |
| `StaticFiles.ExtName` | server.js:20 | the extension is empty or starts with the last `.` of the last path segment; it contains no other `.` and no `/`, and it is a suffix of the path once trailing slashes are removed; its value for each kind of last segment is given by `ExtNameOfFile`, `NoDotNoExtension`, `DotFileHasNoExtension`, `ParentDirHasNoExtension` and `TrailingSlashIgnored` |
| `StaticFiles.ExtNameOfFile` | server.js:20 | a file named `stem.ext` in any directory, with a non-empty stem (dots allowed, as in `jquery.min`) and no `.` in ext, has extension `.ext`; `a.` has extension `.` |
| `StaticFiles.NoDotNoExtension` | server.js:20 | a last segment without `.` has the empty extension |
| `StaticFiles.DotFileHasNoExtension` | server.js:20 | a dot file such as `.bashrc`, whose only `.` is its first character, has the empty extension |
| `StaticFiles.ParentDirHasNoExtension` | server.js:20 | the segment `..` has the empty extension |
| `StaticFiles.TrailingSlashIgnored` | server.js:20 | a trailing `/` does not change the extension |
| `StaticFiles.AsciiLower` | server.js:20 | lower-casing keeps the length and lower-cases each ASCII capital |
| `StaticFiles.ContentType` | server.js:20-38 | the header chosen for a URL is always non-empty, and it is either a type from the table or `application/octet-stream` |
| `StaticFiles.TypeOfExtension` | server.js:21-38 | an extension in the table gets the table's type; any other gets `application/octet-stream`; the result is never empty, so `||` never falls through on a known extension |
| `StaticFiles.RootIsHtml` | server.js:15-38 | the root URL resolves to `./index.html` and is sent as `text/html` |
| `StaticFiles.KnownExtensionType` | server.js:20-38 | a URL whose lower-cased extension is in the table gets exactly the table's type for it |
| `StaticFiles.LoweredType` | server.js:20-38 | the type looked up for an extension is the type of its lower-cased form |
| `StaticFiles.UnknownExtensionIsOctetStream` | server.js:38 | a URL whose lower-cased extension is not in the table is sent as `application/octet-stream` |
| `StaticFiles.UpperCaseExtension` | server.js:20-38 | `/img/Logo.PNG` is sent as `image/png`, because the lookup is on the lower-cased extension |
| `StaticFiles.MinifiedScriptIsJavaScript` | server.js:20-38 | `/js/jquery.min.js` gets `text/javascript`: only the last extension counts |
| `StaticFiles.QueryStringHidesExtension` | server.js:12-38 | the Content-Type computed for `/js/Option.js?v=2` is `application/octet-stream`, because the query string stays in the path; reading that path fails, so the request actually gets the 404 page (server.js:40-47, not modelled) |
| `RoomManager.NewRoom` | server.js:116-126 | a new room is well formed and waiting, and its only player is the requester, as the red owner |
| `RoomManager.Joiner` | server.js:169-174 | the player a join appends carries the requester's id and connection, is not an owner and is blue |
| `RoomManager.Project` | server.js:183 | the list sent to clients has one entry per player, in join order, with that player's id and owner flag |
| `RoomManager.Broadcast` | server.js:187-195 | a broadcast sends at most one message per player, and each message is the broadcast message to an open connection |
| `RoomManager.BroadcastAppend` | server.js:187-195 | broadcasting to two groups in turn is broadcasting to the first group, then to the second, so recipients follow join order |
| `RoomManager.BroadcastRecipients` | server.js:221-228 | a message is in a broadcast exactly when it is the broadcast message addressed to the open connection of some player of the room |
| `RoomManager.BroadcastAllOpen` | server.js:221-228 | when every connection is open, the i-th message goes to the i-th player |
| `RoomManager.FindOwner` | server.js:212 | the owner lookup returns nothing exactly when no player is an owner; otherwise it returns the first player marked as owner |
| `RoomManager.OwnerIsFirst` | server.js:212-213 | in a well-formed room the owner found for `start_game` is the creator, at index 0 |
| `RoomManager.CreateRoomEffect` | server.js:111-134 | the code now maps to a fresh room, replacing any room stored under it; every other entry is unchanged; exactly one `room_created` is sent, to the requester only; the registry invariant is kept |
| `RoomManager.JoinRoomEffect` | server.js:142-195 | a missing code gets `room_joined{success:false, 房间不存在}` and the registry is unchanged; a full room gets `房间已满` and is unchanged; otherwise the requester is appended, answered first with the new list, and then `player_joined` is broadcast to the open members; other rooms never change; the invariant is kept |
| `RoomManager.JoinAppendsOnePlayer` | server.js:169-176 | a successful join keeps every earlier player in place, adds exactly one blue non-owner with the requester's id and connection at the end, and keeps the status |
| `RoomManager.JoinNotifiesRoom` | server.js:179-195 | after a successful join the requester is answered first with the full post-join list; every later message is `player_joined` with that list to an open connection; every open member, the joiner included, gets one |
| `RoomManager.JoinFullRoomKeepsPlayers` | server.js:158-166 | in a valid registry, joining a room that already has two players is refused as full, and the room still has two players |
| `RoomManager.StartGameEffect` | server.js:203-228 | without a room, or when the requester is not the owner's connection, nothing changes and nothing is sent; otherwise the room becomes playing whatever its status was, the player list is kept, and `game_started` goes to each open player in join order; the invariant is kept |
| `RoomManager.StartGameOnlyByCreator` | server.js:205-218 | in a valid registry, `start_game` changes or sends something only when it comes from the creator's connection, and from that connection it always leaves the room playing |
| `RoomManager.StartGameTwiceRebroadcasts` | server.js:218-228 | a second start by the owner leaves the registry as the first left it and sends the same `game_started` messages again |
| `RoomManager.MessageEffect` | server.js:92-105 | `create_room`, `join_room` and `start_game` go to their own handler; an unknown request type changes nothing and sends nothing; any request keeps the invariant and leaves every room other than the one it names unchanged |
| `RoomManager.RecipientsAreMembers` | server.js:131-228 | every message a request sends goes to the requester or to the connection of a player of the named room |
| `RoomManager.CreateThenJoin` | server.js:116-184 | `create_room` followed by `join_room` on the same code always succeeds, with the two-entry list, creator first as owner |
| `RoomManager.EndToEndScenario` | server.js:92-228 | A creates `ABC123`, then B joins, then A starts: the exact messages each connection receives, in order, and the final playing two-player room |
| `RoomManager.Server.constructor` | server.js:66 | the registry starts empty, with no message sent |
| `RoomManager.Server.Send` | server.js:131 | `ws.send` (here and at lines 150, 160, 179, 189 and 223) appends one message for one connection to the outbox and leaves the registry alone |
| `RoomManager.Server.SendToOpen` | server.js:187-195 | the `forEach` loop appends exactly the broadcast of the player list and leaves the registry alone |
| `RoomManager.Server.HandleWebSocketMessage` | server.js:92-105 | the dispatcher leaves the registry and the outbox as `MessageEffect` says, and keeps the invariant |
| `RoomManager.Server.CreateRoom` | server.js:111-137 | the registry and outbox after `createRoom` are those of `CreateRoomEffect` |
| `RoomManager.Server.JoinRoom` | server.js:142-198 | the registry and outbox after `joinRoom`, with the early returns, the push and the broadcast loop, are those of `JoinRoomEffect` |
| `RoomManager.Server.StartGame` | server.js:203-231 | the registry and outbox after `startGame` are those of `StartGameEffect` |
| `PlaneOptions.OnlineState` | js/Option.js:83-91 | a seat is played by the local human exactly when its color is the player's color; by the computer exactly when it is another seat and is blue or yellow; otherwise it is closed, and never `win` |
| `PlaneOptions.OnlineSeats` | js/Option.js:82-93 | the online assignment keeps the number, order and colors of the seats, and gives each seat its `OnlineState` |
| `PlaneOptions.OnlineNormalCount` | js/Option.js:82-93 | with distinct seat colors, exactly one seat is played by the local human if the player's color is among them, and none otherwise |
| `PlaneOptions.InitialUserList` | js/Option.js:19 | the starting seats are four, exactly one of them played by the local human and the others by the computer |
| `PlaneOptions.InitialPalette` | js/Option.js:19 | the starting seats are four, with distinct colors, and those colors are exactly red, blue, yellow and green |
| `PlaneOptions.ExactlyOneHumanSeat` | js/Option.js:19-93 | for any of the four palette colors, online mode leaves exactly one seat to the local human |
| `PlaneOptions.UndefinedColorLeavesNoHumanSeat` | js/Option.js:82-93 | with an undefined player color, the seats become red closed, blue computer, yellow computer and green closed, so no seat is played locally |
| `PlaneOptions.PlaneOption.constructor` | js/Option.js:19-25 | the seats are red/normal, blue/computer, yellow/computer, green/computer; difficulty normal; current user red; music on; online mode off with player color red |
| `PlaneOptions.PlaneOption.SetOnlineMode` | js/Option.js:131-134 | online mode is on and the player color is the given one; no other field and no seat changes |
| `PlaneOptions.PlaneOption.SetUserList` | js/Option.js:78-93 | in online mode the loop rewrites the seats in place to exactly `OnlineSeats` of the old seats and the player color |
| `PlaneOptions.GoOnline` | js/Option.js:19-134 | a fresh settings object switched online with a palette color and then `setUserList` has exactly one seat played by the local human |

## Left out

- The HTTP side of the static server, server.js:40-58: reading the file, the 404 page, the 500 reply and writing the response. These are I/O; only the choice of path and Content-Type is modelled. The Content-Type lemmas therefore speak of the header computed for a path, which is sent only when that file exists; a URL with a query string names no existing file and gets the 404 page.
- `StaticFiles.ExtName`: it follows the POSIX `path.extname`. On Windows, `require('path')` gives the win32 variant, which also splits segments at `\` (so `/a\.js` has no extension there); Windows path semantics are not modelled.
- `StaticFiles.AsciiLower`: it lower-cases ASCII capitals only, while `toLowerCase` also maps other letters. No non-ASCII letter lowercases to a key of the MIME table, so the Content-Type chosen is the same.
- The WebSocket server and transport, `JSON.parse`/`JSON.stringify`, the connection handler, the empty close handler and the logging, server.js:62-87. A parse failure is caught there and does nothing. Disconnects are not modelled, because the code does nothing on close. Open connections are the parameter `open`.
- Request fields of other types than strings, or missing fields (JavaScript `undefined`). A `Request` always carries a string room code and player id.
- What `ws.send` does on a connection that is not open. The replies to the requester are unguarded in the source, and the model records them in the outbox whatever the connection's state. Only the broadcasts check `open`.
- Room records are values in the `rooms` map, and a handler stores the updated record back under its code. In the source a record is reachable only through the map, so updating it in place and storing it back are the same.
- Server start-up and the port setting, server.js:234-239.
- js/Network.js is not part of this model: it is the browser client, its DOM, its random id generation and its message switch. The one fact used from it is that the joiner reads `player.color` (js/Network.js:237); `UndefinedColorLeavesNoHumanSeat` covers that.
- In js/Option.js, `setDifficulty`, `setUser`, `tabStyle` and `begin` are left out. They read or drive the jQuery page, or call the board set-up and the network module. `setFirstUser` is left out too: it is dead code that cannot run as written, because it is never bound to the object and reads `userList.state` without an index.
- `PlaneOptions.PlaneOption.SetUserList`: it models only the online branch and therefore requires `isOnlineMode`. The local branch, js/Option.js:94-100, reads each seat's choice from the settings form.
- The seats are values in a fixed array; writing a seat's state replaces that array element. The sharing of the seat objects with the board set-up (`createPlane`) is not modelled.
