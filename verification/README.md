# Shadowsocks packet tunnel: a verified model

The tunnel provider of this repository runs three pieces of logic that talk to each other only through byte
streams and tables, and this project models and proves properties of all three.

**The SOCKS5-to-Shadowsocks relay** (`PacketTunnelProvider/socks2ss`). A local client speaks SOCKS5
(RFC 1928). Its greeting and CONNECT request are reassembled from whatever chunks arrive; a connection to the
Shadowsocks server is opened; an initialisation vector and the encrypted address header go out first, then the
client's data through a stateful cipher; what comes back is stripped of the server's vector, decrypted and passed
on. One object multiplexes any number of such channels over shared tables, and connects, write completions, closes
and timers arrive in any order.

**The domain trie** (`PacketTunnelProvider/FastPAC.js`, base64 text on one line; the model follows the decoded
script). It answers whether a host is proxied from a white list and a black list.

**UDP through the tunnel** (`PacketTunnelProvider/TunnelInterface.m`). Datagrams go out by a socket; replies are
built back into IPv4 packets addressed by a table of decimal strings.

`dafny verify dfyconfig.toml` checks everything.

## How the project is laid out

| file | content |
|---|---|
| `Bytes.dfy` | octets, exclusive or, 16-bit words, streams of chunks |
| `Socks5.dfy` | packet buffer, SOCKS5 greeting and request codecs |
| `RelayHeader.dfy` | Shadowsocks address header and its relation to the request |
| `WireForms.dfy` | both messages octet by octet, as the standards lay them out |
| `Cipher.dfy` | stateful CFB and RC4 updates against one-shot encryption |
| `Socks5Session.dfy` | the client session: incremental handshake, then data |
| `Handshake.dfy` | whole conversations cut anywhere: what is understood, and what is lost |
| `RelaySession.dfy` | the upstream session and its two byte streams |
| `Channel.dfy` | one channel as a machine of atomic callbacks |
| `ChannelInvariant.dfy` | what every step of a well-behaved client keeps |
| `ChannelGuarantees.dfy` | what that gives for one channel, and exact conditions for any client |
| `Multiplexer.dfy` | all channels over the shared tables |
| `Isolation.dfy` | each multiplexer event is one channel's step and no other's |
| `Socks2SS.dfy` | the multiplexer's code as classes; every event, handled to its end, is a `Multiplexer.Step` |
| `Runs.dfy` | runs of anything that can happen; the tables stay sane in all of them |
| `Guarantees.dfy` | the same guarantees for every run and every reachable state of the multiplexer |
| `Completion.dfy` | at most one completion a request, in one channel of any client |
| `Effects.dfy`, `Addresses.dfy` | what an event does by address and by client; the invariant of lookup by address in all runs |
| `Closing.dfy`, `Answers.dfy` | what closing a channel does, and what each event sends, opens and completes, for any client |
| `Failures.dfy` | inputs on which a promise fails, and when one channel loses its request |
| `LostRequests.dfy` | in all runs: when requests are lost, and exactly what still answers their clients |
| `AddressReuse.dfy` | how a new request can take the address of a lost one, and whom it then answers |
| `Trie.dfy`, `FastPAC.dfy` | the linked trie, its refinement, and which hosts are proxied |
| `Decimal.dfy`, `Checksum.dfy`, `Tunnel.dfy` | session strings, RFC 1071 sums, packets and the session table |

The relay is proved in two layers. `Channels.CellStep` is one channel alone. `Multiplexer.Step` works on the
shared maps. `Isolation.StepIsolated` shows that every multiplexer event is exactly one step of the channel it
concerns and leaves all that any other channel has unchanged, so invariants of one channel carry over to all runs
of the multiplexer. Requests are known by their addresses, as in the source, and an address is used again once the
last references to its request are gone. One event then breaks isolation: a request at the address of an old one
that is still pending (`Multiplexer.Stale`, see below). `Runs.PossibleRun` is any run at all and goes on through such
events; `Guarantees.ProperRun` is one without them. What is said of isolation and of well-behaved clients holds of
the second kind; what is said of the tables, of completions and of lost requests holds of the first.

The classes `Socks2SS`, `SSClient`, `Socks5Session`, `SSTCPRelaySession`, `Crypto`, the codecs and `Trie` update
their fields as the source does, and each method's postcondition ties its effect to the function the theorems are
about.

A *well-behaved* client, where a row says so, offers no-authentication, asks to CONNECT only, sends nothing in the
same read after its greeting or its request and no data before its reply, and does not leave a socket address cut
after its seventh octet; its server sends its vector in one read. `ChannelInvariants.WellBehaved` says this as a condition on each
step. Rows that do not mention it hold for any client.

## What turned out not to hold

* A client that sends data before its reply, and a client whose methods were refused and that outlives the delayed
  close, make the multiplexer reach through a null session (`Failures.EagerClientFails`,
  `Failures.RefusedClientFails`); `ChannelGuarantees.NullSessionExactly` says exactly when.
* A refused client that asks to CONNECT after the delayed close sets its channel's status back
  (`Failures.RefusedClientGoesBack`), and so does the completion of a request it made before the delayed close
  (`Failures.CompletionGoesBack`); `ChannelGuarantees.StatusRegressesExactly` says exactly when.
* What a read brings after the greeting or after the request is cleared with the buffer and lost
  (`Failures.PipelinedRequestFails`). `Handshakes.ConversationExactly` says exactly which ways of cutting a
  conversation into reads are understood, and `Handshakes.NothingLostExactly`, for any octets, by which reads nothing
  is lost.
* A request for a socket address cut between its eighth octet and its end is decoded past the buffer
  (`Failures.CutAddressFails`); `Socks5Sessions.RequestChunks` says exactly when.
* A relay request whose connection closes while the header is being written is not completed: the close callback
  overwrites the state before it tests it (SSTCPRelaySession.cpp:87-88). `Failures.LostHappens` shows it;
  `Failures.LostExactly` says exactly when in one channel, and `LostRequests.RunLosesExactly` in all runs of all
  clients. So a request is completed at most once, not exactly once.
* A lost request leaves its address in the pending map after it is freed, and nothing else does
  (`LostRequests.StaleExactly`). A new request at that address is not entered (the `insert` of Socks2SS.cpp:168 keeps
  the old entry), and its completion answers the old client's channel, not its own
  (`AddressReuse.StaleAnswersElsewhere`; `AddressReuse.AnswersElsewhere` is such a run from the start, which
  well-behaved clients can bring about by `AddressReuse.StaleHappens`). `Isolation.IsolationExactly` says that nothing
  else breaks isolation.
* So the client of a lost request is sent nothing as long as its address is not used again
  (`LostRequests.LostUntilReused`), and what it is ever sent comes from a session opened for another client
  (`LostRequests.AnsweredExactly`, `LostRequests.AnsweredInEveryRun`).
* A session whose connection failed is never taken out of the upstream client's table, because the callback that
  does it is installed on a connection (`Addresses.ListedAfterClose`, `Addresses.FailedStaysListed`).
* A listed domain does not cover all its subdomains: the walk never backs up, so a longer listed name hides it
  (`FastPAC.SubdomainHidesDomain`); `FastPAC.CompletenessExactly` says for which domains it does cover them.
* A UDP checksum that comes out zero is sent as zero, which RFC 768 reads as no checksum
  (`Tunnel.ZeroUdpChecksumExactly`, `Tunnel.ZeroUdpChecksumHappens`).

## Model

| member | source | states |
|---|---|---|
| Socks5.Socks5Request.Pack | PacketTunnelProvider/socks2ss/Socks5Request.cpp:38-71 | the packet is version 5, the command, a zero and the address block of the request's value; an invalid request packs to a single zero |
| Socks5.Socks5Request.Unpack | PacketTunnelProvider/socks2ss/Socks5Request.cpp:73-121 | succeeds, waits or overruns exactly as the decoder function says, with the value, the validity flag and the rest of the buffer it says; while it waits, a short buffer and all fields stay as they are, and an incomplete host name leaves only command, address type and five popped octets changed |
| Socks5.PopSocketAddress | PacketTunnelProvider/socks2ss/Socks5Request.cpp:83-102 | pops address and port of the given family, or reports the buffer too short |
| Socks5.PopHost | PacketTunnelProvider/socks2ss/Socks5Request.cpp:107-114 | pops a host name of the given signed length and its port, or reports the overrun |
| Socks5.RequestRoundTrip | PacketTunnelProvider/socks2ss/Socks5Request.cpp:38-121 | a packed request for a socket address or a host followed by any suffix unpacks to itself and leaves the suffix, if and only if a host name in it has at most 127 octets and, for an empty name, the suffix makes up the minimum length |
| Socks5.ParsedIsPrefix | PacketTunnelProvider/socks2ss/Socks5Request.cpp:73-121 | whatever buffer decodes to a known address type, the buffer from its fourth octet on is the decoded address packed again, then the rest |
| Socks5.Socks5MethodSelectionMessage.Unpack | PacketTunnelProvider/socks2ss/Socks5MethodSelectionMessage.cpp:23-36 | reads the method list exactly when the whole of it has arrived, by a signed count |
| Socks5.GreetingRoundTrip | PacketTunnelProvider/socks2ss/Socks5MethodSelectionMessage.cpp:23-36 | a greeting of section 3 of RFC 1928 followed by any suffix yields its methods and leaves the suffix, if and only if it offers at most 127 methods and has, with the suffix, the minimum length of three octets |
| WireForms.GreetingExactly | PacketTunnelProvider/socks2ss/Socks5MethodSelectionMessage.cpp:23-36 | any three octets or more give the methods and the rest if and only if the second is at most 127 and as many more arrived, whatever the first is |
| WireForms.IPv4Request | PacketTunnelProvider/socks2ss/Socks5Request.cpp:78-92 | type octet 1, four octets, a port and any suffix are read as that IPv4 address and port, whatever the version and reserved octets are, and the suffix is left |
| WireForms.IPv6Request | PacketTunnelProvider/socks2ss/Socks5Request.cpp:93-102 | type octet 4, sixteen octets, a port and any suffix are read as that IPv6 address and port, and the suffix is left |
| WireForms.HostRequest | PacketTunnelProvider/socks2ss/Socks5Request.cpp:103-115 | type octet 3, a length from 1 to 127, that many octets and a port, high octet first, are read as that host name and port, and the suffix is left |
| WireForms.SocketRequestExactly | PacketTunnelProvider/socks2ss/Socks5Request.cpp:75-102 | eight octets or more with type octet 1 or 4 are decoded past their end if and only if they are fewer than ten or twenty-two, and else give the octets from the fifth on |
| WireForms.HostRequestExactly | PacketTunnelProvider/socks2ss/Socks5Request.cpp:103-115 | eight octets or more with type octet 3 wait if and only if the length octet is 128 to 253 or says more than arrived, are decoded past their end if and only if it is 254 or 255, and else give the octets from the sixth on |
| WireForms.WrittenRequest | PacketTunnelProvider/socks2ss/Socks5Request.cpp:42-44 | a request is written as octet 5, its command, octet 0 and its destination |
| WireForms.WrittenAddress | PacketTunnelProvider/socks2ss/Socks5Request.cpp:45-64 | a destination is written as octet 1, 4 or 3 and its own octets, a host name after its length, less all but eight bits, and before its port, high octet first; both encoders write it |
| RelayHeader.SSTCPRelayRequest.Pack | PacketTunnelProvider/socks2ss/SSTCPRelayRequest.cpp:32-62 | the packet is the address block of the request's value, or a single zero when invalid |
| RelayHeader.SSTCPRelayRequest.Unpack | PacketTunnelProvider/socks2ss/SSTCPRelayRequest.cpp:64-94 | the value read, the rest left and the overrun are those of the header decoder function |
| RelayHeader.HeaderRoundTrip | PacketTunnelProvider/socks2ss/SSTCPRelayRequest.cpp:32-94 | a packed header followed by any suffix unpacks to itself and leaves the suffix, if and only if a host name in it has at most 127 octets |
| WireForms.SocketHeader | PacketTunnelProvider/socks2ss/SSTCPRelayRequest.cpp:64-81 | a header of type octet 1 and four octets, or 4 and sixteen, and a port is read as that address and leaves the suffix |
| WireForms.HostHeader | PacketTunnelProvider/socks2ss/SSTCPRelayRequest.cpp:82-88 | a header of type octet 3, a length up to 127, that many octets and a port, high octet first, is read as that host name and leaves the suffix |
| WireForms.OtherHeader | PacketTunnelProvider/socks2ss/SSTCPRelayRequest.cpp:66-91 | of a header with any other type octet that octet alone is read |
| WireForms.HeaderExactly | PacketTunnelProvider/socks2ss/SSTCPRelayRequest.cpp:64-94 | the header decoder never waits, and decodes past the end if and only if the octets are fewer than type and length say or the length is negative |
| RelayHeader.TranslationKeepsTheOctets | PacketTunnelProvider/socks2ss/Socks2SS.cpp:158-165 | for every buffer that decodes to a request, the header sent upstream is octet for octet the buffer from the address type to the port if and only if the address type is a known one; the header decodes to that address, or for an unknown type to a default-constructed one |
| Cipher.EncryptSplits | PacketTunnelProvider/socks2ss/Crypto.cpp:73-80 | encrypting two chunks in two updates gives the ciphertext and the context of encrypting their concatenation |
| Cipher.DecryptSplits | PacketTunnelProvider/socks2ss/Crypto.cpp:82-89 | the same for decryption |
| Cipher.DecryptInverts | PacketTunnelProvider/socks2ss/Crypto.cpp:73-89 | decrypting a ciphertext from the context it was encrypted in gives the plaintext and leaves both contexts equal |
| Cipher.StreamIsCfb | PacketTunnelProvider/socks2ss/Crypto.cpp:47-80 | the octet-wise register produces the block-wise CFB encryption of section 6.3 of NIST SP 800-38A, its last segment cut short |
| Cipher.StreamIsRc4 | PacketTunnelProvider/socks2ss/Crypto.cpp:73-80 | octet `i` of an RC4 ciphertext is octet `i` of the plaintext exclusive-or octet `i` of the key stream, from the start of the connection on |
| Bytes.XorIsBitwise | PacketTunnelProvider/socks2ss/Crypto.cpp:73-89 | a bit of the exclusive or both ciphers take is set if and only if the two octets differ in it |
| Cipher.ChunksAreOneShot | PacketTunnelProvider/socks2ss/Crypto.cpp:73-80 | any number of updates, concatenated, is one update on the concatenation |
| Cipher.Crypto.constructor | PacketTunnelProvider/socks2ss/Crypto.cpp:32-65 | both contexts start from the drawn vector, cut to the cipher's own length |
| Cipher.Crypto.EncryptData | PacketTunnelProvider/socks2ss/Crypto.cpp:73-80 | the output and the advanced context are those of the encryption function; the decryption context is untouched |
| Cipher.Crypto.DecryptData | PacketTunnelProvider/socks2ss/Crypto.cpp:82-89 | the output and the advanced context are those of the decryption function; the encryption context is untouched |
| Cipher.Crypto.SetDecryptIV | PacketTunnelProvider/socks2ss/Crypto.cpp:91-95 | the vector is recorded and restarts the decryption context, which for RC4 stays where it was |
| Socks5Sessions.Socks5Session.OnReadComplete | PacketTunnelProvider/socks2ss/Socks5Session.cpp:22-56 | the read callback's new status, buffer and event are those of the reassembly function the theorems below are about |
| Socks5Sessions.Socks5Session.OnClose | PacketTunnelProvider/socks2ss/Socks5Session.cpp:66-72 | the close callback disconnects and keeps the buffer |
| Socks5Sessions.ByteAccounting | PacketTunnelProvider/socks2ss/Socks5Session.cpp:24-52 | after any reads, the octets consumed with each message, in order, followed by those still buffered and those passed on as data are exactly those received |
| Socks5Sessions.EventsInOrder | PacketTunnelProvider/socks2ss/Socks5Session.cpp:24-52 | any reads report at most one greeting, then at most one request, then only data, and each consumed buffer starts with the message decoded from it |
| Socks5Sessions.GreetingChunks | PacketTunnelProvider/socks2ss/Socks5Session.cpp:27-39 | every split of a whole greeting reports it once, at its last chunk, with the methods of the undivided greeting |
| Socks5Sessions.RequestChunks | PacketTunnelProvider/socks2ss/Socks5Session.cpp:40-52 | a split of a whole request reports it once, at its last chunk, with the undivided value, if and only if it names a host or no cut leaves more than seven of its octets buffered |
| Socks5Sessions.HandshakeChunks | PacketTunnelProvider/socks2ss/Socks5Session.cpp:22-56 | when some read ends with the greeting, every split of greeting and request gives exactly one negotiate and one request event, each at its last chunk and with the undivided values, if and only if the request names a host or no cut leaves more than seven of its octets buffered |
| Handshakes.DroppedIsLast | PacketTunnelProvider/socks2ss/Socks5Session.cpp:32-51 | a consumed buffer is what the callback is given, as long as the decoded message is, followed by what the decoder left over, which the clearing discards |
| Handshakes.MessageIsGiven | PacketTunnelProvider/socks2ss/Socks5Session.cpp:31-47 | what a callback is given for a message is that message's own encoding: version, count and methods, or version, command, reserved octet and address |
| Handshakes.NothingLostExactly | PacketTunnelProvider/socks2ss/Socks5Session.cpp:24-52 | after any reads, what the callbacks were given followed by what is still buffered is all that was received if and only if every read leaves the decoder a greeting buffer of at most two octets or no longer than its signed count says, or a request buffer of at most seven octets, of just the ten or twenty-two octets of a socket address, or no longer than its host name says (a negative count, or a name length below -2, only waits) |
| Handshakes.CutAtMeans | PacketTunnelProvider/socks2ss/Socks5Session.cpp:22-56 | a place is a cut if and only if some number of whole reads hold exactly that many octets |
| Handshakes.ConversationExactly | PacketTunnelProvider/socks2ss/Socks5Session.cpp:22-56 | a greeting, a request and any data, cut into any reads at all, are reported once each with their undivided values and the data passed on in full, if and only if a read ends with the greeting, another with the request, and the request names a host or no read ends inside it after its seventh octet |
| RelaySessions.SSTCPRelaySession.FirstPacket | PacketTunnelProvider/socks2ss/SSTCPRelaySession.cpp:101-105 | the first packet is the plain vector followed by the encrypted header, and the cipher has advanced over the header |
| RelaySessions.SSTCPRelaySession.Connect | PacketTunnelProvider/socks2ss/SSTCPRelaySession.cpp:47-108 | the connect callback's whole new state is that of the connect function; on failure it runs the request callback with failure and then the close callback, and otherwise neither |
| RelaySessions.SSTCPRelaySession.WriteComplete | PacketTunnelProvider/socks2ss/SSTCPRelaySession.cpp:68-83 | a first write that succeeds authorizes the session; the request callback runs with the very outcome while authorizing, the write callback when authorized, and none else, which is what the channel machine is told |
| RelaySessions.SSTCPRelaySession.ReadComplete | PacketTunnelProvider/socks2ss/SSTCPRelaySession.cpp:55-67 | the new state is that of the read function and the read callback runs with its plaintext; a first chunk shorter than the vector does nothing defined |
| RelaySessions.SSTCPRelaySession.Closed | PacketTunnelProvider/socks2ss/SSTCPRelaySession.cpp:84-96 | the close callback only disconnects, and runs the close callback and then the default one, never the request callback |
| RelaySessions.SSTCPRelaySession.Send | PacketTunnelProvider/socks2ss/SSTCPRelaySession.cpp:114-128 | data is encrypted and sent when authorized and otherwise dropped, the cipher unmoved |
| RelaySessions.SSTCPRelaySession.RequestClose | PacketTunnelProvider/socks2ss/SSTCPRelaySession.cpp:130-136 | the TCP session is asked to close when there is one and the session is not disconnected |
| RelaySessions.RunKeepsStreams | PacketTunnelProvider/socks2ss/SSTCPRelaySession.cpp:55-128 | over any run of callbacks and calls the wire stays the vector and the encryption of header and accepted data, and the delivered octets stay the decryption of those received |
| RelaySessions.UpstreamTransparency | PacketTunnelProvider/socks2ss/SSTCPRelaySession.cpp:97-128 | after any run, stripping the vector and decrypting all that was written yields the address header followed, in order, by exactly the data handed over while authorized, however it was chunked |
| RelaySessions.DownstreamTransparency | PacketTunnelProvider/socks2ss/SSTCPRelaySession.cpp:55-67 | reading any split of the peer's vector and ciphertext is defined if and only if the first chunk holds the vector, and then delivers exactly the plaintext that has arrived |
| ChannelInvariants.StepGood | PacketTunnelProvider/socks2ss/Socks2SS.cpp:72-186 | every step of a well-behaved client and its server keeps the channel's invariant: status, pending request, upstream session, replies, delayed closes and both byte streams agree |
| ChannelGuarantees.StepEffect | PacketTunnelProvider/socks2ss/Socks2SS.cpp:209-265 | what any step may do to a channel's entry: requests set it waiting, completions established, closes move it forward, nothing else touches it; sent messages are never taken back |
| ChannelGuarantees.StatusRegressesExactly | PacketTunnelProvider/socks2ss/Socks2SS.cpp:97 | a step of any client sets a status back if and only if it is a CONNECT request on a channel past waiting or a completion on one past established |
| ChannelGuarantees.StatusForward | PacketTunnelProvider/socks2ss/Socks2SS.cpp:167 | with a well-behaved client no step sets the status back |
| ChannelGuarantees.NullSessionExactly | PacketTunnelProvider/socks2ss/Socks2SS.cpp:175-181 | a step of any client reaches a null session if and only if it relays data, or closes an established channel or a closing one whose client is closed, and the channel has no upstream session |
| ChannelGuarantees.LeavesOnlyWhenClosed | PacketTunnelProvider/socks2ss/Socks2SS.cpp:237-263 | an established or closing channel leaves the map only in a state where both its sessions are closed |
| Closings.TablesAfterClose | PacketTunnelProvider/socks2ss/Socks2SS.cpp:215-265 | in any tables, `closeChannel` removes the entry, or sets it closing, by its status and by which ends are closed; asks an open client unless the channel was closing; asks an established channel's open session; changes nothing else; and where a session it looks at is missing, does only that |
| Closings.StepClosesExactly | PacketTunnelProvider/socks2ss/Socks2SS.cpp:215-265 | every step of any client that closes its channel and finds the sessions looked at leaves the entry, both ends and their close requests as the cases on status and closed ends say |
| Closings.BothEndsAreAsked | PacketTunnelProvider/socks2ss/Socks2SS.cpp:219-254 | for any client, closing an inited, waiting or established channel leaves its client asked to close or closed before, and an established one's session asked or closed; closing a closing channel asks nobody and changes neither end |
| Closings.EveryCloseExactly | PacketTunnelProvider/socks2ss/Socks2SS.cpp:215-265 | every event of the multiplexer, of any clients and with any addresses used again, that closes a channel and finds the sessions looked at does so to that channel, its client and its session and to no others |
| Answers.ToldExactly | PacketTunnelProvider/socks2ss/Socks2SS.cpp:94-156 | for any client, exactly what each event sends it: 0 or 255 for a greeting, 7 for another command, 0 or 1 for a completion, and data as decrypted, if its channel is there and nothing else ever; and that a delayed close is posted with 255, 7 and 1 and only those |
| Answers.FaultsExactly | PacketTunnelProvider/socks2ss/Socks2SS.cpp:116-118 | for any client, exactly which steps fail and how: a request decoded past its end, a first read shorter than the vector, or a null session; and `assert(false)` in none |
| Answers.OpensExactly | PacketTunnelProvider/socks2ss/Socks2SS.cpp:157-170 | a CONNECT request of any client leaves its channel waiting, its request pending and a listed session on its way to connect, with its own vector and the client's own text of the address |
| Answers.CompletesExactly | PacketTunnelProvider/socks2ss/Socks2SS.cpp:77-119 | a completion for any client takes the pending entry and binds the session; it establishes a channel that is there, and for one that is gone asks the connected session to close |
| Answers.ConnectsExactly | PacketTunnelProvider/socks2ss/SSTCPRelaySession.cpp:97-106 | a connection made sends the vector and the encrypted header and changes nothing but the session |
| ChannelGuarantees.StaysGone | PacketTunnelProvider/socks2ss/Socks2SS.cpp:261-271 | no step of any client brings back a channel that is gone |
| ChannelGuarantees.UpstreamEndToEnd | PacketTunnelProvider/socks2ss/Socks2SS.cpp:175-181 | the server decrypts the client's own octets, from its request's address type to the last octet relayed, in order and without a gap |
| Isolation.StepIsolated | PacketTunnelProvider/socks2ss/Socks2SS.cpp:72-186 | every multiplexer event, short of a request at the address of an old pending one, is one step of the channel it concerns and leaves everything any other channel has as it was; addresses of freed requests may be used again |
| Isolation.IsolationExactly | PacketTunnelProvider/socks2ss/Socks2SS.cpp:166-169 | an event is one step of its own channel and of no other if and only if it is not a CONNECT request at the address of an old request whose entry is still pending |
| Isolation.StaleMisdirects | PacketTunnelProvider/socks2ss/Socks2SS.cpp:168 | such a request leaves the pending map naming the old request's channel |
| Guarantees.ChannelIsolation | PacketTunnelProvider/socks2ss/Socks2SS.cpp:72-271 | in every run in which no request is made at the address of an old pending one, what the tables hold for an id is what the one-channel machine makes of that id's own events alone; addresses of requests no longer pending may be used again |
| Guarantees.RunKeepsAllGood | PacketTunnelProvider/socks2ss/Socks2SS.cpp:72-271 | over every run of well-behaved clients every channel keeps its invariant, and every event of the run can be carried out |
| Guarantees.TablesAgree | PacketTunnelProvider/socks2ss/Socks2SS.cpp:77-97 | in every reachable state no fault occurred, ids are below the next one, a channel waits if and only if exactly one pending request maps to it, and established or closing channels have their own bound session |
| Guarantees.Transparency | PacketTunnelProvider/socks2ss/Socks2SS.cpp:83-181 | in every reachable state each opened upstream connection carries its own client's octets without gap or mix, and its client was sent what its server wrote |
| Guarantees.RepliesFirst | PacketTunnelProvider/socks2ss/Socks2SS.cpp:94-114 | in every reachable state: one reply at most, payload only after success, none after failure, and a session completed without its channel is closing or closed |
| Guarantees.ClosesBothEnds | PacketTunnelProvider/socks2ss/Socks2SS.cpp:215-265 | in every reachable state closing channels, and only those, asked their open ends to close, and a failed one that is still established has a delayed close to come |
| Guarantees.CloseProtocol | PacketTunnelProvider/socks2ss/Socks2SS.cpp:209-265 | in every step from a reachable state an established or closing channel leaves only with both sessions closed, and has left once both close callbacks ran, in either order |
| Runs.StepSane | PacketTunnelProvider/socks2ss/Socks2SS.cpp:72-271 | whatever happens, no channel holds a session that is gone, every listed session, pending entry and captured id leads to something that is there, and no id is used twice |
| Runs.NeverReturns | PacketTunnelProvider/socks2ss/Socks2SS.cpp:209-213 | over every run at all, an id that left the table never comes back |
| Guarantees.StatusOnlyForward | PacketTunnelProvider/socks2ss/Socks2SS.cpp:215-265 | over every run of well-behaved clients a channel's status changes no more often than there are statuses ahead of it |
| Completion.CompletionFindsRequest | PacketTunnelProvider/socks2ss/SSTCPRelaySession.cpp:45-96 | for any client, a completion finds its request pending and its session listed, so `assert(false)` is not reached; it binds the session, and nothing else does |
| Effects.StepEffect | PacketTunnelProvider/socks2ss/Socks2SS.cpp:72-271 | exactly what any event does to every session, pending entry and client: which session closes, is bound or freed, which entry comes or goes, and which client is sent one message more |
| Addresses.StepKeyed | PacketTunnelProvider/socks2ss/SSClient.cpp:47-65 | every event that can happen keeps: a session is pending until it is bound, listed until it was told of the close of its connection, and it, the channel it is bound to and the pending entry at its address are of clients that asked by that address |
| Addresses.CompletedAtMostOnce | PacketTunnelProvider/socks2ss/SSClient.cpp:50-58 | over every run at all, of any clients and servers and with any addresses used again, completions at an address never outnumber the requests made there, each binds a session, a bound one is not completed again before it is freed, and `assert(false)` is never reached |
| Addresses.NoMoreThanRequests | PacketTunnelProvider/socks2ss/Socks2SS.cpp:74-120 | from the start, any run at all has at most as many completions at an address as requests made there |
| Addresses.ListedAfterClose | PacketTunnelProvider/socks2ss/SSClient.cpp:61-65 | after any run at all, a session that was told of its close is still listed if and only if its connection was never made |
| Addresses.FailedStaysListed | PacketTunnelProvider/socks2ss/SSTCPRelaySession.cpp:47-53 | over every run at all, a session that failed to connect stays there and listed |
| Failures.EagerClientFails | PacketTunnelProvider/socks2ss/Socks2SS.cpp:179 | greeting, request and one octet of data before the reply reach a null session |
| Failures.PipelinedRequestFails | PacketTunnelProvider/socks2ss/Socks5Session.cpp:30-37 | greeting and request in one read: the greeting is answered, the request is gone and the channel still waits for one |
| Failures.RefusedClientFails | PacketTunnelProvider/socks2ss/Socks2SS.cpp:250-254 | a refused client that closes after the delayed close reaches a null session |
| Failures.RefusedClientGoesBack | PacketTunnelProvider/socks2ss/Socks2SS.cpp:166-169 | a refused client that asks to CONNECT after the delayed close sets a closing channel back to waiting |
| Failures.CompletionGoesBack | PacketTunnelProvider/socks2ss/Socks2SS.cpp:96-97 | a refused client that asks to CONNECT and meets the delayed close before its completion: the completion sets the closing channel back to established |
| Failures.CutAddressFails | PacketTunnelProvider/socks2ss/Socks5Request.cpp:75-92 | an IPv4 request cut after its eighth octet is decoded past the buffer |
| Failures.LostHappens | PacketTunnelProvider/socks2ss/SSTCPRelaySession.cpp:84-96 | greeting, request, connection made, connection closed: the request is lost |
| Failures.LostExactly | PacketTunnelProvider/socks2ss/SSTCPRelaySession.cpp:84-96 | for any client, a request is lost if and only if its connection closes while its header is still being written |
| Failures.LostForever | PacketTunnelProvider/socks2ss/SSTCPRelaySession.cpp:87-91 | whatever its own client and its own session go through, a lost request stays pending and its client is sent nothing more; another client's request at its address is no event of the one-channel machine |
| LostRequests.PendingExactly | PacketTunnelProvider/socks2ss/Socks2SS.cpp:74-119 | after any event a client's request is pending if and only if it was and the event is not a completion that the pending map names that client for, or the event is its request at an address with no pending entry |
| LostRequests.LosesExactly | PacketTunnelProvider/socks2ss/SSTCPRelaySession.cpp:84-96 | after any event a client's request is lost if and only if its own session closes while the header is being written, or it was lost and the event is not a completion that the pending map names it for |
| LostRequests.RunLosesExactly | PacketTunnelProvider/socks2ss/SSTCPRelaySession.cpp:84-96 | after every run at all a client's request is lost if and only if such a close lost it and no completion for it came since |
| LostRequests.StaysPendingExactly | PacketTunnelProvider/socks2ss/Socks2SS.cpp:168 | after every run at all a client's request is in the pending map, its channel there or gone, if and only if it was lost, and not completed for it since, or its session is still to complete |
| LostRequests.StaleExactly | PacketTunnelProvider/socks2ss/Socks2SS.cpp:166-169 | in every state of every run a request finds an old entry at its address if and only if the address is that of a lost request |
| LostRequests.AnsweredExactly | PacketTunnelProvider/socks2ss/Socks2SS.cpp:77-110 | a client whose request was lost, or whose session is gone without completing, is sent one message by an event if and only if its channel is there and the event completes, or reads from, a session that another client opened at its address and that the pending map names, or has bound, for it; and nothing otherwise |
| LostRequests.AnsweredInEveryRun | PacketTunnelProvider/socks2ss/Socks2SS.cpp:77-110 | over every further run at all such a client is sent exactly as many messages as there are such events |
| LostRequests.LostUntilReused | PacketTunnelProvider/socks2ss/SSTCPRelaySession.cpp:87-91 | over every further run without a new request at its address, a lost request stays lost, has no completion, and its client is sent nothing |
| AddressReuse.StaleHappens | PacketTunnelProvider/socks2ss/Socks2SS.cpp:168 | well-behaved clients can bring an empty multiplexer to a state where a new request takes the address of a lost one that is still pending |
| AddressReuse.StaleAnswersElsewhere | PacketTunnelProvider/socks2ss/Socks2SS.cpp:77-105 | after such a request, whether its connection is made and takes the header or fails, the old client's channel is established with the new session and the old client, not the new one, is sent the reply |
| AddressReuse.AnswersElsewhere | PacketTunnelProvider/socks2ss/Socks2SS.cpp:77-105 | there is a run from the start, for either outcome, that ends with one client answered through the session of another, which was sent nothing after the answer to its greeting |
| Socks2SSServer.SSClient.SendTCPRelayRequest | PacketTunnelProvider/socks2ss/SSClient.cpp:36-67 | the request's new session is listed; it has its own cipher contexts, holds the request and is on its way to connect |
| Socks2SSServer.SSClient.OnDefaultClose | PacketTunnelProvider/socks2ss/SSClient.cpp:61-65 | the request's session is no longer listed |
| Socks2SSServer.Socks2SS.CreateChannel | PacketTunnelProvider/socks2ss/Socks2SS.cpp:209-213 | all tables become those of an arrival under the next id, which is returned |
| Socks2SSServer.Socks2SS.GenMethodSelectionResponse | PacketTunnelProvider/socks2ss/Socks2SS.cpp:193-202 | no-authentication if it is among the methods offered, in any position, and otherwise not-acceptable |
| Socks2SSServer.Socks2SS.OnNegotiate | PacketTunnelProvider/socks2ss/Socks2SS.cpp:130-144 | all tables become those of the negotiation function: one answer, and a delayed close if refused |
| Socks2SSServer.Socks2SS.OnRequest | PacketTunnelProvider/socks2ss/Socks2SS.cpp:145-172 | all tables become those of the request function: refusal and delayed close, or a waiting channel, a pending request and a listed new session |
| Socks2SSServer.Socks2SS.RelayRequest | PacketTunnelProvider/socks2ss/Socks2SS.cpp:158-165 | the upstream request made for a client's request has its address, or a default-constructed one for an unknown type |
| Socks2SSServer.Socks2SS.OnRead | PacketTunnelProvider/socks2ss/Socks2SS.cpp:175-181 | all tables become those of the forwarding function, the null session included |
| Socks2SSServer.Socks2SS.CloseChannel | PacketTunnelProvider/socks2ss/Socks2SS.cpp:215-265 | all tables become those of the close function, by status and by which ends are closed |
| Socks2SSServer.Socks2SS.OnRequestDone | PacketTunnelProvider/socks2ss/Socks2SS.cpp:74-120 | all tables become those of the completion function: bound and established with its reply, or the session closed when the channel is gone |
| Socks2SSServer.Socks2SS.OnUpstreamRead | PacketTunnelProvider/socks2ss/Socks2SS.cpp:83-89 | the client of the captured id, if its channel is there, is sent the plaintext, and nothing else changes |
| Socks2SSServer.Socks2SS.HandleRead | PacketTunnelProvider/socks2ss/Socks5Session.cpp:22-56 | a read, from the TCP callback through the session to the end of the callback it runs, is the multiplexer's read step |
| Socks2SSServer.Socks2SS.HandleUpstreamClosed | PacketTunnelProvider/socks2ss/SSTCPRelaySession.cpp:84-96 | the close of an upstream session runs its channel's close and then the client's erasure, as the multiplexer's step does |
| Socks2SSServer.Socks2SS.Handle | PacketTunnelProvider/socks2ss/Socks2SS.cpp:72-186 | every event that can happen, a request at the address of an old pending one included, handled to the end of all it runs, is a step of the multiplexer the theorems are about and leaves tables in which nothing dangles |
| Tries.Trie.Match | PacketTunnelProvider/FastPAC.js:1 | the loop over linked nodes answers as the longest-existing-path specification does |
| Tries.Trie.Add | PacketTunnelProvider/FastPAC.js:1 | the loop that makes missing children leaves linked nodes, one for each path, holding the specified paths and values |
| Tries.TrieRefinement | PacketTunnelProvider/FastPAC.js:1 | after any adds the paths are exactly the prefixes of the added keys and the values the last written |
| Tries.AnswerExactly | PacketTunnelProvider/FastPAC.js:1 | after any adds, a key is answered with the value last written to the longest beginning it shares with an added key, if any, when the key ends there or goes on with a dot, and with null otherwise |
| Tries.OrderIndependence | PacketTunnelProvider/FastPAC.js:1 | adds with the same last writes leave the same trie and answers |
| Tries.DistinctKeysAnyOrder | PacketTunnelProvider/FastPAC.js:1 | adding the same distinct keys in any order leaves the same trie and answers |
| FastPAC.LoadList | PacketTunnelProvider/FastPAC.js:1 | walking a list from its end adds its reversed domains after what was there |
| FastPAC.Setup | PacketTunnelProvider/FastPAC.js:1 | set-up leaves the trie of the white list's adds followed by the black list's |
| FastPAC.FindProxyForURL | PacketTunnelProvider/FastPAC.js:1 | the proxy is returned if and only if the reversed host's answer is a true value |
| FastPAC.ScriptWrites | PacketTunnelProvider/FastPAC.js:1 | the keys written are the listed domains reversed, true exactly for those on the black list, whichever else they are on |
| FastPAC.PathIsShared | PacketTunnelProvider/FastPAC.js:1 | the walk of a host can go on exactly as far as some listed domain shares the host's end |
| FastPAC.ProxiedExactly | PacketTunnelProvider/FastPAC.js:1 | a host is proxied if and only if it is, or lies below, a black-listed domain that is the longest end it shares with any listed domain |
| FastPAC.Soundness | PacketTunnelProvider/FastPAC.js:1 | only hosts that are, or end in a dot and, a black-listed domain are proxied, and every black-listed domain itself is |
| FastPAC.CompletenessExactly | PacketTunnelProvider/FastPAC.js:1 | all hosts under a black-listed domain are proxied if and only if no listed domain lies below it |
| FastPAC.SubdomainHidesDomain | PacketTunnelProvider/FastPAC.js:1 | with `b` and `xa.b` listed, `ya.b` lies under `b` and is not proxied |
| Decimals.PrintRoundTrip | PacketTunnelProvider/TunnelInterface.m:188-189 | reading back a printed number gives it, for every 32-bit integer |
| Decimals.PrintIsDecimal | PacketTunnelProvider/TunnelInterface.m:253-255 | a number is printed as decimal digits, highest first, after a minus sign if it is negative |
| Decimals.HostPortRoundTrip | PacketTunnelProvider/TunnelInterface.m:186-189 | splitting and reading back a host-port string gives host and port, for all 32-bit integers |
| Decimals.HostPortInjective | PacketTunnelProvider/TunnelInterface.m:253-255 | two host-port strings are equal if and only if host and port are |
| Checksums.FoldIsRemainder | PacketTunnelProvider/TunnelInterface.m:210 | folding carries computes the remainder by 65535, with 65535 for nonzero multiples |
| Checksums.SumMeans | PacketTunnelProvider/TunnelInterface.m:210 | the words are summed high octet first, an odd last octet as the high one |
| Checksums.ChecksumVerifies | PacketTunnelProvider/TunnelInterface.m:249-250 | storing the checksum in its zeroed field, anywhere on a word boundary, makes the whole sum all ones |
| Checksums.InetChksum | PacketTunnelProvider/TunnelInterface.m:250 | the summing and folding loops compute the checksum of RFC 1071 |
| Checksums.ByteOrderIndependence | PacketTunnelProvider/TunnelInterface.m:250 | summing and storing words low octet first stores the same two octets |
| Tunnel.KeyRoundTrip | PacketTunnelProvider/TunnelInterface.m:171-172 | every address and port, through 32-bit and 16-bit integers and their decimal string, is read back from the table string |
| Decimals.IntValueReads | PacketTunnelProvider/TunnelInterface.m:188-189 | spaces are passed over, a sign is taken, what follows the digits is left, and a number out of the 32-bit range is held to its nearer end |
| Tunnel.KeyIsDecimal | PacketTunnelProvider/TunnelInterface.m:171-172 | the table string of an endpoint is its address, low octet first and signed, a colon and its port, low octet first |
| Tunnel.TableHoldsLastSender | PacketTunnelProvider/TunnelInterface.m:171-173 | after any packets and clearings the table holds an entry for a remote endpoint if and only if something was sent to it since, and it is the last sender's |
| Tunnel.PacketParts | PacketTunnelProvider/TunnelInterface.m:156-168 | a packet is ignored unless its version is 4, and then is read with ports and payload where its header length says, if it is long enough |
| Tunnel.OptionsAreSkipped | PacketTunnelProvider/TunnelInterface.m:160-166 | a datagram whose header carries any options is read as its endpoints and its payload |
| Tunnel.IpHeaderVerifies | PacketTunnelProvider/TunnelInterface.m:237-251 | the ones' complement sum over every built IP header is all ones |
| Tunnel.HeaderFields | PacketTunnelProvider/TunnelInterface.m:237-251 | the header of a reply is `0x45`, 0, its length, four zeros, 64 and 17, its sum, and the two addresses |
| Tunnel.UdpVerifies | PacketTunnelProvider/TunnelInterface.m:209-210 | the ones' complement sum over pseudo header and built UDP segment is all ones |
| Tunnel.ZeroUdpChecksumExactly | PacketTunnelProvider/TunnelInterface.m:209-210 | the checksum field is zero if and only if the words it is taken over add up to a multiple of 65535 |
| Tunnel.ZeroUdpChecksumHappens | PacketTunnelProvider/TunnelInterface.m:209-210 | between any two endpoints there is a two-octet payload whose checksum field is zero |
| Tunnel.ReplyReadsBack | PacketTunnelProvider/TunnelInterface.m:190-221 | a reply packet is of version 4 with a five-word header, type of service 0, time to live 64 and protocol 17, has exact lengths and verifying sums, the second over the pseudo header of RFC 768 in octets, and is read by the tunnel's own inbound offsets as the same endpoints and payload |
| Tunnel.ReplyReachesLastSender | PacketTunnelProvider/TunnelInterface.m:182-221 | after any packets and clearings, data from a remote endpoint becomes a packet that reads back as that data, from that endpoint to whoever last sent to it |
| Tunnel.TunnelInterface.HandleUDPPacket | PacketTunnelProvider/TunnelInterface.m:152-180 | an IPv4 datagram is sent on stripped, to its destination, and makes its sender the last one for that destination; anything else changes and sends nothing |
| Tunnel.TunnelInterface.DidReceiveData | PacketTunnelProvider/TunnelInterface.m:182-227 | the packet written is the reply packet from the remote endpoint to its last sender, or to 0.0.0.0 port 0 when there is none |
| Tunnel.TunnelInterface.GenerateNewIPHeader | PacketTunnelProvider/TunnelInterface.m:237-252 | the header built field by field is the one `HeaderFields` gives in octets and whose sum verifies |
| Tunnel.TunnelInterface.Clear | PacketTunnelProvider/TunnelInterface.m:82-85 | stopping or restarting forgets every sender |

## Left out

Assumptions of the model:

- Each callback under its mutex, including the status update after an inner callback, is one step; lock and unlock calls are not modelled, nor is the order in which two callbacks of one connection would block on each other.
- The TCP library (not part of this model) is assumed to give one connect result, at most one write completion a send, at most one close callback, and a closed session by the time that callback runs; closing and being told of it are separate steps, and `close()` may or may not close at once.
- No data comes from upstream before the request callback ran, because the read callback is not installed before; and the server is not stopped while channels are open (Socks2SS.cpp:32-41 clears both maps).
- Relay requests are known by their addresses, as in the source. A new request's address is not that of one still there; an old request is gone once the upstream client's table and its channel's entry no longer refer to its session.
- `popInt8` gives a signed octet and `size()` an unsigned size, so a negative bound compares as huge; `appendInt16` and `popInt16` use network order.
- Popping more than a packet holds is a fault of its own in the model; what the source then reads is not defined by its code.
- Socks5.Socks5MethodSelectionMessage.Unpack: method codes are octets, although Socks5MethodSelectionMessage.cpp:33 reads them through a pointer to an enumeration, four octets a method where that is its size, and so past the message; what that finds is not defined by this code.
- Socks5.GreetingRoundTrip: rests on the same reading of the method list as octets.
- A fault stops the channel it happens in. In the program a null session would end the whole process.
- A client session that was decoded past its buffer takes no further steps, so nothing is claimed about what is then sent upstream.

What is modelled differently or not at all:

- Socks2SSServer.Socks2SS: keeps the state of the session objects in records, reached by id and by request instead of through captured pointers; that the session classes step as these records do is proved of each class by itself, and aliasing between session objects is not modelled.
- Isolation.StepIsolated: leaves out the request at the address of an old pending one, for which it is false, and so do the runs of `Guarantees`; what such requests lead to in whole runs is said by address and by client (`Addresses`, `LostRequests`, `AddressReuse`), and not of the octets their sessions then carry.
- Cipher.Crypto: the block function and the RC4 key stream are arbitrary; key derivation, drawing the vector and any claim of secrecy are left out.
- Tunnel.TunnelInterface.DidReceiveData: requires a packet of at most 65535 octets, which every UDP datagram over IPv4 meets; the source's 16-bit length would wrap beyond it.
- Addresses.CompletedAtMostOnce: at most once and not exactly once, because a close while authorizing is never reported.
- `SOCKS5` reply octets and bound addresses (`Socks5Response`, `Socks5MethodSelectionResponse`): only which reply is sent is modelled.
- A session whose connection failed stays in the upstream client's table, as in the source; that it goes with the table when the program ends is not modelled.
- `handleTCPPPacket` writes a length and a packet to a pipe whose reader is not part of this model.
- `inet_chksum` belongs to the lwIP library; it is modelled from RFC 1071, and `ByteOrderIndependence` covers its reading words in host order.
- IPv6 datagrams: the branch is empty in the source. Packets shorter than their headers are read past their end in the source and are `Short` in the model.
- The domain lists and address lists are data; the trie is proved for arbitrary lists.
- `sendUDPData`, the empty pack and unpack stubs, `stringify`, logging, configuration, the packet tunnel provider's set-up and all user interface code.
