# A verified model of the HFT demo engine

The project models the trading engine in `HftDemo`: the ITCH codec and replay framing, the
per-symbol order book, strategy, risk check and trade tape, the market state that routes
messages, orders and fills, the replay gateway, the shared-memory ring with its producer and
consumers, the C++ execution engine, and the live path made of all of these.

Each object the source updates in place is a class whose methods are proved to compute a
function on values (`View() == F(old(View()))`). The laws are then proved about those
functions over whole runs. The concurrent parts are step machines: every step touches one
memory word, and the theorems hold after every interleaving.

| file | contents |
|---|---|
| `Common`, `Sums`, `Bytes` | machine widths and wrapping arithmetic; sums over maps and sequences; byte orders |
| `Itch`, `ItchFormat`, `ItchRoundTrip`, `Framing` | parser, message formats by offset, packet printer, length-prefixed replay file |
| `OrderBook`, `BookLaws`, `Ticker`, `Feed`, `TapeLaws` | the L3/L2 book, its algebra, the tape, and runs of messages |
| `Strategy`, `Risk`, `Processor`, `ProcessorLaws` | one symbol and what holds of it in every reachable state |
| `Gateway`, `Market`, `MarketLaws`, `PacketLaws`, `TelemetryLaws`, `CreditLaws`, `ReplayLaws`, `UnsharedLaws`, `FillRouting`, `OrderCap` | the whole market, with any gateway and with the replay gateway |
| `MaskArithmetic`, `Ring`, `RingProtocol`, `RingProtocolLaws`, `RingCounterexamples` | the ring: masks, sequential use, word-by-word protocol |
| `Wire`, `ExecutionEngine`, `LiveEngine`, `LivePath`, `LivePathLaws`, `LiveCounterexamples`, `LiveMarket`, `Visualiser` | the processes around the rings, and the market trading over them |

Conventions. u32 totals of the book wrap, as an optimised Rust build makes them. Prices and
thresholds that the source keeps as floats are exact: midpoints are doubled, the 0.8 imbalance
and the 2% band are compared by cross-multiplication. A slice past the end of a packet stops
the process, as the Rust panic does. Ghost logs record what was sent, filled, received and
emitted; nothing the code computes depends on them.

Where code and comments differ, the model follows the code:

- `poll_confirmed_orders` credits every fill as a buy, so `strategy.position` counts filled
  shares, bought or sold alike, while its comments speak of a net position.
- The ring's overlap tests use `> capacity`. A success exactly one capacity behind the head can
  be torn (`TornSuccess`); `ReadResult::Reset` cannot occur, because `Empty` is returned first.
- Comments in the execution engine speak of 24-byte reports; the packed struct has 19 bytes.
- An add under a resting id leaves the overwritten order's shares in its level. The book laws
  carry these as orphaned shares.

## Model

| member | source | states |
|---|---|---|
| OrderBook.L3OrderBook.AddOrder | crates/orderbook/src/lib.rs:37-52 | the new book is the specified one: the id now names the new order, its level grows by the quantity in u32 |
| OrderBook.L3OrderBook.CancelOrder | crates/orderbook/src/lib.rs:60-85 | the new book is the specified one: order and level shrink, each is dropped at zero, an unknown id changes nothing |
| OrderBook.L3OrderBook.Spread | crates/orderbook/src/lib.rs:112-117 | the specified spread: present exactly when both sides have levels; ask minus bid, zero when crossed |
| BookLaws.AddKeepsAgreement | crates/orderbook/src/lib.rs:37-52 | adding keeps every level equal to resting plus orphaned shares if and only if the level's u32 total does not wrap |
| BookLaws.CancelKeepsAgreement | crates/orderbook/src/lib.rs:60-85 | cancelling keeps the level index right if and only if it takes no more than the order holds, or more than the whole present level |
| BookLaws.CancelsAddUp | crates/orderbook/src/lib.rs:60-85 | two cancels of one order are one cancel of their sum |
| BookLaws.AddThenCancelRestores | crates/orderbook/src/lib.rs:37-85 | a fresh positive add followed by any cancels totalling its quantity restores the exact book, unless its level was present at zero |
| BookLaws.AddsCommute | crates/orderbook/src/lib.rs:37-52 | adds under different ids reach the same book in either order |
| BookLaws.CancelsCommute | crates/orderbook/src/lib.rs:60-85 | bounded cancels of different orders reach the same book in either order |
| BookLaws.AddAndCancelCommute | crates/orderbook/src/lib.rs:37-85 | an add and a bounded cancel commute exactly when not (an empty order joins the level the cancel clears) |
| BookLaws.BestIsBestResting | crates/orderbook/src/lib.rs:88-110 | in an agreeing positive book the best quote is the best resting price with its full size, absent exactly when the side is empty |
| Ticker.TradeTicker.AddTrade | crates/ticker/src/lib.rs:29-48 | the trade is appended, the volume grows by its quantity, its price becomes the last sale |
| Feed.LevelsAgreeAfterRun | crates/market-handler/src/lib.rs:38-127 | after any run of messages that keep the index, each level is resting plus orphaned shares; the first message that fails the test breaks some level |
| Feed.NoLevelUnderflow | crates/orderbook/src/lib.rs:60-85 | after such a run a bounded cancel, execution or delete lowers each level by exactly the shares it removes there, which the level and the order still hold |
| Feed.SharesConserved | crates/market-handler/src/lib.rs:38-124 | shares added are resting, orphaned, cancelled or executed, until and only until a message takes more than its order holds |
| Feed.VolumeAccounts | crates/market-handler/src/lib.rs:54-124 | after any run the volume is the sum of the recorded trades; buyers' volume is printed buys plus executions against resting sells, sellers' the reverse; the last sale is the last trade's price |
| Feed.UnknownIdsChangeNothing | crates/market-handler/src/lib.rs:69-124 | deletes, cancels and executions of unknown ids change neither book nor tape; off-book trades change only the tape |
| Feed.BestPricesAfterCleanRun | crates/orderbook/src/lib.rs:88-110 | after any run with fresh ids and positive bounded quantities the best prices are the best resting prices with their full aggregates |
| Feed.SpreadAfterCleanRun | crates/orderbook/src/lib.rs:112-117 | after such a run there is a spread exactly when both sides have resting orders: the best resting ask minus the best resting bid, zero when crossed |
| TapeLaws.TapeTellsTrades | crates/market-handler/src/lib.rs:54-124 | over every run the k-th trade on the tape is the one the k-th trading message makes: its match number and size, its own price for printed trades and executions with price, the price of the order's add for plain executions, the aggressor opposite the add; the last sale is the last of these prices |
| TapeLaws.TradingIs | crates/market-handler/src/lib.rs:54-124 | the trading messages are exactly the printed trades and the executions of resting orders, each once, in order |
| TapeLaws.RestingAsAdded | crates/orderbook/src/lib.rs:37-85 | a resting order has the price and side of the last add under its id, whatever came since |
| Strategy.SimpleMidPoint.OnBookUpdate | crates/strategies/src/lib.rs:170-234 | the new strategy state and the wished order are the specified ones |
| Strategy.SimpleMidPoint.OnTrade | crates/strategies/src/lib.rs:236-251 | the trade count and the i32 position move as specified |
| Strategy.TradesCancelOut | crates/strategies/src/lib.rs:236-251 | a seller's trade takes back exactly what a buyer's of the same size brought, wrapping included |
| Strategy.WishesAreNumbered | crates/strategies/src/lib.rs:160-164 | each wished order takes the next number, and nothing else does |
| Risk.LocalRisk.Check | crates/risk-engine/src/lib.rs:37-88 | the decision is the specified one, and the position moves exactly when the order passes |
| Risk.JudgedByLimits | crates/risk-engine/src/lib.rs:37-88 | an order passes exactly when it is at most 1000 shares, leaves the position within 3500 and is within 2% of the opposite best; a failure names the first of these it breaks, and the position moves exactly on a pass |
| Processor.SymbolProcessor.HandleEvent | crates/market-handler/src/lib.rs:30-172 | one message takes symbol, gateway, id counter and telemetry to exactly the specified state |
| Processor.SymbolProcessor.SendTelemetry | crates/market-handler/src/lib.rs:176-229 | a record is written exactly when the midpoint is positive and new, with equity from cash and position |
| ProcessorLaws.SendsExactlyWhen | crates/market-handler/src/lib.rs:129-169 | in every reachable state the order sent is the expected one: 100 shares at the opposite best price, sent if and only if the midpoint left the last two-sided one, the book leans along and both position limits allow it |
| ProcessorLaws.OnlyPositionRejects | crates/risk-engine/src/lib.rs:37-88 | an order of 100 at the opposite best is rejected exactly when it would leave plus or minus 3500, never by size or band |
| ProcessorLaws.NoMoveNoOrder | crates/strategies/src/lib.rs:176-233 | a message after which a two-sided book has its old midpoint sends nothing |
| ProcessorLaws.QuietMessagesSendNothing | crates/market-handler/src/lib.rs:54-124 | off-book trades and messages about unknown ids send nothing |
| ProcessorLaws.HandleKeepsSound | crates/market-handler/src/lib.rs:30-229 | one message keeps book, tape and midpoint those of the feed, the risk position the signed sum of sent orders within 3500, every order awaited or filled once and counted as a trade, emitted midpoints positive and changing |
| ProcessorLaws.FillKeepsSound | crates/market-handler/src/lib.rs:318-332 | so does a confirmed fill |
| Gateway.ReplayGateway.SendOrder | apps/replay-engine/src/main.rs:108-138 | the fill is queued, cash and position of the locate move by the signed trade, the last price is kept |
| Market.MarketState.HandleStockDirectory | crates/market-handler/src/lib.rs:291-307 | the first symbol matching the trimmed name gets the locate and the table entry; no match changes nothing |
| PacketLaws.UnknownNameChangesNothing | crates/market-handler/src/lib.rs:291-307 | an entry whose name, without the zero bytes and blanks around it, no symbol has changes nothing |
| PacketLaws.FirstOfNameTakesLocate | crates/market-handler/src/lib.rs:291-307 | otherwise the first symbol of that name takes the locate, the locate leads to it, and nothing else changes |
| Market.MarketState.PollConfirmedOrders | crates/market-handler/src/lib.rs:309-334 | draining any queue of reports, whatever they are, is confirming them one by one in order |
| Market.MarketState.FilterMessage | crates/market-handler/src/lib.rs:356-383 | directory messages map; others reach exactly the symbol their locate leads to, with its order, telemetry and id |
| Market.MarketState.HandleRawPacket | crates/market-handler/src/lib.rs:335-354 | clock, parse, route, poll, as specified; false exactly when a slice past the packet's end stops the process; the clock and the packets that stop it are those of PacketLaws |
| PacketLaws.ClockIsStamped | crates/market-handler/src/lib.rs:335-347 | after any packets a further one sets the clock to midnight plus its six-byte timestamp, and a record it adds bears that time |
| PacketLaws.PrintedAtStamp | crates/market-handler/src/lib.rs:335-347 | a message printed with any timestamp is read back as that message, at midnight plus the timestamp |
| PacketLaws.PassedOverOnlyTicks | crates/itch-parser/src/lib.rs:116-240 | a packet of an unsupported kind, or an add or trade of unknown side, moves the clock, takes the waiting reports, does nothing else, and the process goes on |
| PacketLaws.PassedOverInRun | crates/itch-parser/src/lib.rs:240-240 | after any packets of a replay such a packet moves only the clock |
| Market.MarketState.Replay | apps/replay-engine/src/main.rs:179-200 | the loop ends, having handled exactly the frames of the file in order |
| PacketLaws.ReplayStopsExactlyWhen | apps/replay-engine/src/main.rs:184-200 | the replay of a file reaches its end exactly when no frame is shorter than its timestamp or than the fields of its kind, by a table of kinds and lengths |
| PacketLaws.RunStopsAt | apps/replay-engine/src/main.rs:184-200 | a run ends at the first packet that is too short, in the state before it but for the clock |
| MarketLaws.AlwaysSound | crates/market-handler/src/lib.rs:143-164 | after any messages and any reports from any gateway, order ids are 0,1,2,... and every symbol is sound, with disjoint ids |
| MarketLaws.NoOrderFilledTwice | crates/market-handler/src/lib.rs:309-334 | no order id is credited twice over a whole run, nor credited and awaited |
| MarketLaws.TrackersDisjoint | crates/market-handler/src/lib.rs:143-164 | trackers of different symbols share no id, and hold only ids below the counter |
| MarketLaws.BooksFollowTheirFeeds | crates/market-handler/src/lib.rs:30-127 | in every behaviour each symbol's book, tape and midpoint are those of exactly the messages whose locate led to it when they came, with agreeing levels and accounted volume |
| MarketLaws.EveryOrderIsExpected | crates/market-handler/src/lib.rs:129-169 | after any messages and reports, the market answers a delivered message with exactly the order expected from the messages routed to that symbol, under the next id, and only when a two-sided midpoint differs from the last two-sided one |
| MarketLaws.DirectoryPacketMaps | crates/market-handler/src/lib.rs:291-307 | a printed directory packet sends its locate to the first symbol of that name and moves no other locate |
| MarketLaws.PositionPlusAwaitedIsSent | crates/strategies/src/lib.rs:236-251 | with any echoing gateway the position plus the awaited shares are all shares sent, and the risk position too when all were buys |
| CreditLaws.CreditedExactlyWhenReported | crates/market-handler/src/lib.rs:309-334 | with an echoing gateway and no shared locate, an order is credited to its sender if and only if it has been reported, and awaited if and only if it has not |
| CreditLaws.AllReportedAllCredited | crates/strategies/src/lib.rs:236-251 | once all orders are reported nobody awaits a fill and each position is 100 per order sent |
| ReplayLaws.AccountsAlwaysMatch | apps/replay-engine/src/main.rs:107-138 | over every run, with locates remapped or shared at will, position, cash and last price per locate are those of the orders sent, and all risk positions sum to all gateway positions |
| ReplayLaws.FillIsBooked | apps/replay-engine/src/main.rs:107-138 | the one fill a send queues reports what it books: its shares and its value at the reported price are what position and cash of its locate move by, and no other locate moves |
| ReplayLaws.EveryRecordShowsGain | crates/market-handler/src/lib.rs:200-228 | each packet adds at most one telemetry record; its equity is the sum, over all orders sent on its locate, of signed quantity times midpoint minus price, its position their signed sum |
| ReplayLaws.RunIsSound | crates/market-handler/src/lib.rs:335-354 | the market is sound after every run of raw packets, however locates are mapped |
| ReplayLaws.ReplayIsBehaviour | crates/market-handler/src/lib.rs:335-354 | every run of raw packets is, up to the clock, a sequence of delivered messages and polled reports, so the laws over behaviours hold of it |
| TelemetryLaws.TelemetryAlternates | crates/market-handler/src/lib.rs:176-229 | in every behaviour the records written for the messages routed to a symbol show positive midpoints, each different from the one before |
| TelemetryLaws.ShownIsLogged | crates/market-handler/src/lib.rs:176-229 | those midpoints are exactly the ones the symbol emitted, in order |
| TelemetryLaws.RecordedExactlyWhen | crates/market-handler/src/lib.rs:181-228 | after any behaviour a message adds a record if and only if it leaves both sides of its symbol's book at positive prices with a midpoint, in whole ticks, other than the last one shown; the record shows that midpoint, the time, and the locate's position and equity after the order sent |
| TelemetryLaws.AlwaysCounted | crates/market-handler/src/lib.rs:143-229 | in every behaviour all orders and all records together are those of the symbols: none belongs to two or to none |
| UnsharedLaws.AtMost121Orders | crates/strategies/src/lib.rs:192-217 | in every replay run without shared locates each position is 100 per confirmed order, none is outstanding, all after the 51st are sells, and there are at most 121 |
| OrderCap.CounterAtMost | crates/strategies/src/lib.rs:192-217 | such a run sends at most 121 orders for each target symbol in all |
| OrderCap.CapIsReached | crates/strategies/src/lib.rs:192-217 | a run of printed packets without shared locates in which one symbol sends exactly 121 orders |
| UnsharedLaws.RunSettles | apps/replay-engine/src/main.rs:107-142 | after every packet of such a run no fill is pending, every mapped symbol gets its own fills, and every symbol is within the order cap |
| UnsharedLaws.RiskIsGatewayPosition | crates/risk-engine/src/lib.rs:53-86 | in such runs each risk position is the sum of the gateway positions on the locates assigned to the symbol |
| FillRouting.FillReachesSenderExactlyWhen | crates/market-handler/src/lib.rs:316-332 | a fill is credited to the symbol that sent the order if and only if that symbol's current locate still leads to it; if not, the symbol awaits it after any later packets too |
| FillRouting.StillAwaited | crates/market-handler/src/lib.rs:309-334 | with no fill pending, who awaits an order sent so far never changes over any further packets |
| FillRouting.SharedLocateLosesFill | crates/market-handler/src/lib.rs:291-332 | five concrete packets after which the first order is filled, and however the run goes on it is awaited and never credited |
| ItchRoundTrip.PrintThenParse | crates/itch-parser/src/lib.rs:54-242 | parsing a printed message returns it; for a directory entry exactly when its symbol is trimmed and fits eight bytes |
| ItchRoundTrip.DirectoryRoundTrip | crates/itch-parser/src/lib.rs:70-77 | the directory case of the round trip, in both directions |
| ItchRoundTrip.ParsedFitsPacket | crates/itch-parser/src/lib.rs:92-238 | every parsed price fits the 4-byte price field |
| ItchFormat.ParseFollowsFormat | crates/itch-parser/src/lib.rs:54-242 | for all packets and messages: the parser returns the message exactly when the packet says it by the byte offsets of NASDAQ TotalView-ITCH 5.0, stops exactly when the packet ends before a field read, and passes over all others |
| ItchFormat.TrimIs | crates/itch-parser/src/lib.rs:71-71 | trimming takes off exactly the blanks at both ends |
| Framing.ReplayYieldsWholeMessages | apps/replay-engine/src/main.rs:184-200 | an encoded file cut at any byte yields exactly the messages wholly before the cut, unless the last is empty and ends at the cut |
| Framing.SomeMessagesAreWhole | apps/replay-engine/src/main.rs:184-192 | every cut lies after some number of whole messages, so the previous law covers all cuts |
| MaskArithmetic.MaskIsRemainder | crates/shm-ring-buffer/src/lib.rs:199-205 | the mask with capacity minus one is the remainder by capacity |
| MaskArithmetic.PowerOfTwoTest | crates/shm-ring-buffer/src/lib.rs:75-77 | the size test accepts exactly the powers of two |
| MaskArithmetic.CapacityIsPowerOfTwo | crates/shm-ring-buffer/src/lib.rs:109-109 | the capacity is a power of two exactly when the file holds at least one slot |
| MaskArithmetic.DistinctSlots | crates/shm-ring-buffer/src/lib.rs:150-151 | sequence numbers less than a capacity apart have different slots |
| Ring.ShmRing.Write | crates/shm-ring-buffer/src/lib.rs:138-171 | the message joins the log and only its slot changes, keeping old bytes past its length; over 54 bytes it panics and changes nothing |
| Ring.ShmRing.Read | crates/shm-ring-buffer/src/lib.rs:174-224 | empty, overlapped and success exactly by position against the log, a success holding the log entry |
| Ring.CreateProducer | crates/shm-ring-buffer/src/lib.rs:71-112 | stops exactly on sizes that are not powers of two; no slots exactly for accepted sizes below one slot; otherwise a valid ring of that many slots with an empty log |
| RingProtocolLaws.RunOk | crates/shm-ring-buffer/src/lib.rs:138-224 | every interleaving keeps the ring invariant: slots hold their log messages except the one being overwritten, and so do the readers' copies of intact slots |
| RingProtocolLaws.SuccessIsGenuine | crates/shm-ring-buffer/src/lib.rs:138-224 | in every interleaving a success with the final head less than a capacity ahead is the very message; at exactly a capacity ahead, unless the producer was mid-write |
| RingProtocolLaws.ConsumerReceivesInOrder | apps/visualiser/src/main.rs:82-155 | deliveries strictly increase, jumps go forward to the oldest retained message, and every number passed was delivered or jumped over |
| RingCounterexamples.TornSuccess | crates/shm-ring-buffer/src/lib.rs:218-223 | for every capacity and number, and for checked and unchecked readers, a reachable success exactly a capacity ahead that is not the message |
| RingCounterexamples.LappedGatewayTakesTheWrongMessage | apps/execution-engine/main.cpp:81-122 | for every capacity, number and head more than a capacity ahead, mid-write or not, a run in which the unchecked gateway takes the message of the last lap for the one it asked for |
| RingCounterexamples.GenuineExactlyWhen | crates/shm-ring-buffer/src/lib.rs:174-224 | over all interleavings a success is sure to be genuine if and only if the last head loaded was less than a capacity ahead, or a capacity ahead with no write under way |
| Wire.ReportRoundTrip | apps/execution-engine/contracts.hpp:28-34 | a report survives the 19-byte layout |
| Wire.CommandRoundTrip | apps/execution-engine/contracts.hpp:6-12 | a command survives the 19-byte layout |
| Wire.ReportLayout | apps/execution-engine/contracts.hpp:28-34 | a record is read as a report exactly when its bytes hold that report's fields at their packed offsets, and is written so |
| Wire.CommandLayout | apps/execution-engine/contracts.hpp:6-12 | the same for commands, a zero side byte meaning a buy |
| Wire.RecordsAndTail | apps/execution-engine/main.cpp:145-159 | the cut is complete: any stream is its records in order followed by its tail |
| Wire.AnyChunking | apps/execution-engine/main.cpp:130-159 | however the stream is chunked, the records handed on are the stream cut into consecutive 19-byte records |
| ExecutionEngine.Engine.OnReceive | apps/execution-engine/main.cpp:140-159 | after any chunk the inbound ring has exactly the whole records received so far, the buffer exactly the rest, fewer than 19 bytes |
| ExecutionEngine.Engine.LoopIteration | apps/execution-engine/main.cpp:80-172 | one turn of the loop: the next command is sent or retried, a chunk is drained, and only network failures exit |
| ExecutionEngine.Engine.ProcessExecution | apps/execution-engine/main.cpp:26-38 | the report joins the inbound log, stamped zero |
| LiveEngine.ShmGateway.SendOrder | apps/live-engine/src/main.rs:35-37 | the command's bytes join the outbound log |
| LiveEngine.CommandBytesLayout | crates/common/src/lib.rs:49-68 | Rust's command has 22 bytes: the 19 the gateway sends, the last of which is the low byte of the four-byte side |
| LiveEngine.ShmGateway.PollConfirmedOrders | apps/live-engine/src/main.rs:39-53 | the next report in order, none exactly when there is none, fatal exactly when overrun |
| LivePathLaws.LiveRunOk | apps/execution-engine/main.cpp:80-166 | every step that starts no write into a full ring keeps the stages contiguous: outbound ring, exchange, wire and buffer, inbound ring, confirmed |
| LivePathLaws.NothingLostOrReordered | apps/live-engine/src/main.rs:34-53 | in every interleaving in which no process starts writing into a full ring, however many orders are elsewhere, the orders sent are those confirmed, then those in each stage in order, and no poll is overrun |
| LivePathLaws.ReservedRunIsCareful | apps/live-engine/src/main.rs:34-53 | a trading engine that sends only while its unconfirmed orders fit both rings never lets a write start into a full ring |
| LiveCounterexamples.OneOrderTooMany | apps/execution-engine/main.cpp:81-122 | from any state of a careful run with a full, idle outbound ring, one more order can be forwarded in place of the one due, which is then lost |
| LiveCounterexamples.OneReportTooMany | apps/live-engine/src/main.rs:39-53 | from any such state with a full inbound ring, one more report overruns the poll |
| LiveCounterexamples.OverrunPollIsFatal | apps/live-engine/src/main.rs:39-53 | an overrun poll confirms nothing and stops the trading engine |
| LiveCounterexamples.StoppedForGood | apps/live-engine/src/main.rs:48-51 | from then on nothing is sent or confirmed, whatever the other processes do |
| LiveCounterexamples.OutboundBoundIsExact | apps/execution-engine/main.cpp:81-122 | for all capacities a run whose only write into a full ring is its last order, and which loses an order |
| LiveCounterexamples.InboundBoundIsExact | apps/execution-engine/main.cpp:26-38 | for all capacities a run whose only write into a full ring is its last report, and which is overrun |
| LiveMarket.LivePathIsEchoing | apps/live-engine/src/main.rs:34-53 | to the market the live path is an echoing gateway on all those runs |
| LiveMarket.LivePositions | crates/strategies/src/lib.rs:236-251 | so over the live path each position is 100 per credited order, every order sent is credited or awaited, and none is credited twice |
| LiveMarket.LiveCredits | apps/live-engine/src/main.rs:39-53 | over the live path without shared locates an order is credited to its sender if and only if a poll has returned its report; when all have been returned each position is 100 per order |
| Visualiser.Consumer.Consume | apps/visualiser/src/main.rs:82-155 | the loop over any read results ends in the specified position, open batch and posts |
| Visualiser.ConsumerFollowsReader | apps/visualiser/src/main.rs:110-151 | posted batches and the open one are exactly the slots delivered, none empty, none above 5001; an idle read leaves nothing held, and a batch is posted only then or at exactly its 5001st record |
| Visualiser.ConsumerShowsTheLog | apps/visualiser/src/main.rs:82-155 | in every interleaving the consumer holds its reader's deliveries in log order, with all of them posted after an idle read; each delivered less than a capacity behind, or exactly a capacity behind with no write under way, carries its log message |
| Visualiser.PositionAfterAnyReads | apps/visualiser/src/main.rs:82-155 | whatever the reads return, the consumer is as many successes past where its last reset, overrun or interruption sent it as came since |
| Visualiser.ResetStartsOver | apps/visualiser/src/main.rs:133-138 | a reset drops what is held, keeps what is posted and starts over |
| Visualiser.AnyReadsKept | apps/visualiser/src/main.rs:82-155 | without a reset every successful read is posted or held, once, in order |

## Left out

- ItchRoundTrip.PrintThenParse: symbols are bytes; the replacement of non-ASCII bytes by `from_utf8_lossy` and Unicode blanks are not modelled.
- Ring.CreateProducer: what reading or writing a ring of capacity zero does, with its wrapped mask, is not modelled; opening the file never fails.
- Market.MarketState.Replay: at most 32768 target symbols, so that an index fits the i16 lookup table.
- LivePathLaws.NothingLostOrReordered: the exchange receives whole 19-byte orders and echoes each once in order; fragmented receives, partial sends and a lost connection are not modelled.
- UnsharedLaws.AtMost121Orders: positions and cash of the gateway are unbounded integers there, which the bound of 121 orders justifies for positions only.
- Weak memory: every load and store is one step of a sequentially consistent interleaving, so the Acquire, Release and Relaxed orderings are not reasoned about.
- Producer restart, start-up races, shared-memory files, sockets, core pinning, page faulting and the magic number.
- IEEE rounding in the imbalance, drift and band comparisons.
- The u64 order counter, u64 volume, i64 cash and i32 gateway positions are unbounded integers; midpoint sums beyond 53 bits are exact.
- Order latency stamps, printing, InfluxDB line format and posting, final profit printing, core selection.
- The `quantity` and `price` types of `common::Trade`, which no code path uses.
- ITCH messages the parser ignores, such as replace and attributed adds; the book then follows the supported messages only.
