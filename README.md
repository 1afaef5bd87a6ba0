# go-digital-twin core, modelled in Dafny

This project models the core of the go-digital-twin server: the in-memory store of digital twins and the in-process message bus behind its HTTP API. Each Go struct whose methods change fields in place is a Dafny `class`. Each method is one atomic step, because the source's read/write locks only serialise calls.

- **FeatureState** (`feature.dfy`, module `FeatureStates`) has:
  - a bag of current properties;
  - a bag of desired properties;
  - a definition list, held in an `array<string>` that is copied in and copied out;
  - the time of the last change.

  `Feature` is the value of a feature, which is what a twin stores. `PropertyEdit`, `Apply` and `Replay` describe a series of property edits. `LiveKeys` states which keys survive such a series.
- **DigitalTwin** (`twin.dfy`, module `DigitalTwins`) is an identified, typed entity with:
  - a definition string;
  - an attribute map;
  - a map of named features;
  - creation and modification times.

  Feature operations fail with `FeatureAlreadyExists` or `FeatureNotFound`, and a failed call changes nothing. `Twin` is its value, which is what the registry stores.
- **Registry** (`registry.dfy`, module `TwinRegistry`) maps identifiers to twins:
  - Create, Get, Update and Delete each report their own error (`TwinAlreadyExists` or `TwinNotFound`);
  - List, FindByAttribute and FindByFeature are one scan (`Select`) that returns exactly the matching twins, each once;
  - the invariant `Valid()` says every entry is stored under its own twin's identifier.
- **PubSub** (`pubsub.dfy`, module `MessagingSim`) maps topics to lists of channels. A channel is a `Channel` object: a buffer of at most 10 messages and a closed flag.
  - Subscribe appends a fresh channel.
  - Unsubscribe removes the first occurrence of a channel and drops the topic once its list is empty.
  - Publish offers the message to every subscriber without blocking, so a full buffer misses it.
  - Close closes every subscribed channel and forgets every topic.
  - The invariant `Valid()` says:
    - a topic is present exactly when its list is non-empty;
    - no channel is listed twice;
    - every subscribed channel is open, has capacity 10 and holds at most 10 messages.
- `scenarios.dfy` and `bus_scenarios.dfy` hold client runs that mirror the repository's unit tests. They are proved from the methods' contracts and the functions' definitions.
- `common.dfy` holds the shared pieces:
  - the abstract `Value` type, which stands for Go's `interface{}` with `==`;
  - the time type (`Time`);
  - the `Option`, `Outcome` and `Result` wrappers for Go's `(v, ok)` and `error` returns;
  - the map-copy and array-copy loops.

The clock (`time.Now()`) is a `now: Time` parameter of each operation that stamps a time.

## Model

| member | source | states |
|---|---|---|
| Common.Lookup | pkg/twin/feature.go:32-33 | the comma-ok lookup `v, ok := m[k]`: present exactly when the key is in the map, and then the stored value |
| Common.CopyMap | pkg/twin/feature.go:59-63 | the `make` plus `range` copy loop returns a map equal to the one copied |
| Common.CopyArray | pkg/twin/feature.go:110-111 | `make` plus `copy` yields a fresh array with the same elements in the same order |
| FeatureStates.LiveKeysStep | pkg/twin/feature.go:37-52 | one more set adds its key to the surviving keys; one more remove takes its key away |
| FeatureStates.ReplayKeys | pkg/twin/feature.go:37-64 | starting from an empty bag, after any series of sets and removes, the stored keys are exactly those set and not removed since |
| FeatureStates.ReplaySize | pkg/twin/feature.go:55-64 | the number of stored properties is the number of distinct keys set and not removed since |
| FeatureStates.FeatureState.constructor | pkg/twin/feature.go:18-25 | a new feature has empty property bags, an empty definition list and is stamped with the current time |
| FeatureStates.FeatureState.GetProperty | pkg/twin/feature.go:28-34 | returns the value exactly when the key is present |
| FeatureStates.FeatureState.SetProperty | pkg/twin/feature.go:37-43 | afterwards GetProperty(key) is Some(value); every other key reads as before; desired properties and definition are untouched; LastModified is now |
| FeatureStates.FeatureState.RemoveProperty | pkg/twin/feature.go:46-52 | afterwards GetProperty(key) is None; every other key reads as before; removing an absent key leaves the bag as it was; LastModified is now |
| FeatureStates.FeatureState.GetAllProperties | pkg/twin/feature.go:55-64 | returns a map equal to the stored properties and changes nothing |
| FeatureStates.FeatureState.GetDesiredProperty | pkg/twin/feature.go:67-73 | returns the desired value exactly when the key is present |
| FeatureStates.FeatureState.SetDesiredProperty | pkg/twin/feature.go:76-82 | set/get round trip on desired properties only; current properties and definition are untouched; LastModified is now |
| FeatureStates.FeatureState.RemoveDesiredProperty | pkg/twin/feature.go:85-91 | remove/absent round trip on desired properties only; removing an absent key changes no property; LastModified is now |
| FeatureStates.FeatureState.GetAllDesiredProperties | pkg/twin/feature.go:94-103 | returns a map equal to the stored desired properties |
| FeatureStates.FeatureState.SetDefinition | pkg/twin/feature.go:106-113 | stores a fresh element-wise copy of the caller's list, so later writes to the caller's array are not seen; the bags are untouched; LastModified is now |
| FeatureStates.FeatureState.GetDefinition | pkg/twin/feature.go:116-123 | returns a fresh array equal to the stored list |
| DigitalTwins.DigitalTwin.constructor | pkg/twin/twin.go:30-40 | a new twin has the given id and type, no definition, no attributes and no features, and CreatedAt equals ModifiedAt equals now |
| DigitalTwins.DigitalTwin.SetDefinition | pkg/twin/twin.go:43-49 | afterwards GetDefinition returns the definition set; attributes and features are untouched; ModifiedAt is now |
| DigitalTwins.DigitalTwin.GetDefinition | pkg/twin/twin.go:52-57 | returns the stored definition, the read half of the SetDefinition round trip |
| DigitalTwins.DigitalTwin.GetAttribute | pkg/twin/twin.go:60-66 | returns the value exactly when the attribute is present |
| DigitalTwins.DigitalTwin.SetAttribute | pkg/twin/twin.go:69-75 | afterwards GetAttribute(key) is Some(value); every other attribute reads as before; features and definition are untouched; ModifiedAt is now |
| DigitalTwins.DigitalTwin.RemoveAttribute | pkg/twin/twin.go:78-84 | afterwards GetAttribute(key) is None; every other attribute reads as before; ModifiedAt is now |
| DigitalTwins.DigitalTwin.GetAllAttributes | pkg/twin/twin.go:87-96 | returns a map equal to the stored attributes |
| DigitalTwins.DigitalTwin.GetFeature | pkg/twin/twin.go:99-105 | returns the stored feature exactly when the name is present |
| DigitalTwins.DigitalTwin.AddFeature | pkg/twin/twin.go:108-119 | fails with FeatureAlreadyExists exactly when the name is present, and then changes neither features nor ModifiedAt; otherwise inserts the feature under the name, changes no other entry and stamps now |
| DigitalTwins.DigitalTwin.UpdateFeature | pkg/twin/twin.go:122-133 | fails with FeatureNotFound exactly when the name is absent, and then changes nothing; otherwise replaces that entry, keeps the set of names and stamps now |
| DigitalTwins.DigitalTwin.RemoveFeature | pkg/twin/twin.go:136-147 | fails with FeatureNotFound exactly when the name is absent, and then changes nothing; otherwise GetFeature(name) is None afterwards, every other feature reads as before and ModifiedAt is now |
| DigitalTwins.DigitalTwin.GetAllFeatures | pkg/twin/twin.go:150-159 | returns a map equal to the stored features |
| TwinRegistry.DistinctIdsCount | pkg/registry/registry.go:82-92 | a list of twins with distinct ids has as many elements as ids |
| TwinRegistry.Registry.constructor | pkg/registry/registry.go:23-27 | a new registry is empty and keyed by id |
| TwinRegistry.Registry.Create | pkg/registry/registry.go:30-40 | fails with TwinAlreadyExists exactly when the id is present, and then leaves the stored entry; otherwise stores the twin under its own id and the registry grows by one |
| TwinRegistry.Registry.Get | pkg/registry/registry.go:43-53 | returns the stored twin, whose id is the one asked for, exactly when the id is present; TwinNotFound otherwise |
| TwinRegistry.Registry.Update | pkg/registry/registry.go:56-66 | fails with TwinNotFound exactly when the id is absent, and then changes nothing; otherwise replaces that entry; the set of ids is unchanged either way |
| TwinRegistry.Registry.Delete | pkg/registry/registry.go:69-79 | fails with TwinNotFound exactly when the id is absent; otherwise removes that entry and the registry shrinks by one; afterwards Get(id) is TwinNotFound |
| TwinRegistry.Registry.Select | pkg/registry/registry.go:82-124 | the scan shared by List and the two finds returns exactly the stored twins the filter accepts, each once |
| TwinRegistry.Registry.List | pkg/registry/registry.go:82-92 | returns every stored twin exactly once, and its length is the number of entries |
| TwinRegistry.Registry.FindByAttribute | pkg/registry/registry.go:95-108 | returns exactly the stored twins whose attribute key is present and equal to the value, each once |
| TwinRegistry.Registry.FindByFeature | pkg/registry/registry.go:111-124 | returns exactly the stored twins holding a feature of that name, each once |
| MessagingSim.Channel.constructor | pkg/messaging_sim/pubsub.go:32 | `make(chan Message, 10)`: an open channel with an empty buffer of the given capacity |
| MessagingSim.Offer | pkg/messaging_sim/pubsub.go:81-86 | a non-blocking send appends the message when the buffer has room and drops it when the buffer is full |
| MessagingSim.OfferAllDeliversPrefix | pkg/messaging_sim/pubsub.go:79-87 | repeated publishes to a channel nobody drains keep the old buffer, deliver the messages in order until it is full, drop the rest, and never exceed the capacity |
| MessagingSim.OfferAllSnoc | pkg/messaging_sim/pubsub.go:80-86 | one more non-blocking send after a series of sends is one more Offer on the resulting buffer |
| MessagingSim.RemoveFirstAt | pkg/messaging_sim/pubsub.go:48-54 | the splice `append(subs[:i], subs[i+1:]...)` at the first index holding the channel removes its first occurrence and keeps the others in order; when the channel is absent the list is unchanged |
| MessagingSim.RemoveFirstSubset | pkg/messaging_sim/pubsub.go:48-54 | removing from a list only removes: every channel left was in the list |
| MessagingSim.RemoveFirstDistinct | pkg/messaging_sim/pubsub.go:48-54 | removing from a list without repetitions leaves one without repetitions that no longer holds the channel |
| MessagingSim.CloseChannels | pkg/messaging_sim/pubsub.go:97-99 | closes every channel of one topic's list and leaves their buffers as they were |
| MessagingSim.PubSub.Subscribers | pkg/messaging_sim/pubsub.go:57 | the read `ps.subscribers[topic]` (also at line 33): the stored list, or empty (Go's nil slice) when the topic is absent; lookup is by exact key |
| MessagingSim.PubSub.constructor | pkg/messaging_sim/pubsub.go:20-24 | a new bus has no topics |
| MessagingSim.PubSub.Subscribe | pkg/messaging_sim/pubsub.go:27-35 | returns a fresh, open, empty channel of capacity 10, appended to the end of the topic's list; other topics are unchanged; the bus invariant is kept |
| MessagingSim.PubSub.Unsubscribe | pkg/messaging_sim/pubsub.go:38-60 | an unknown topic changes nothing; otherwise the first occurrence of the channel is removed from the topic's list, the others keep their order, and the topic is dropped when its list becomes empty; afterwards the channel is not subscribed to the topic |
| MessagingSim.PubSub.Publish | pkg/messaging_sim/pubsub.go:63-88 | the topic map is unchanged; every channel subscribed to exactly that topic gets Message(topic, payload) appended if its buffer has room and is unchanged if it is full; only those channels may change, so a topic with no subscribers changes nothing; the bus invariant (buffers within capacity) is kept |
| MessagingSim.PubSub.Close | pkg/messaging_sim/pubsub.go:91-102 | every channel subscribed before the call is closed with its buffer as it was, and the topic map is empty |
| Scenarios.EditProperties | pkg/twin/feature.go:37-52 | a series of SetProperty and RemoveProperty calls leaves the properties equal to the replay of those edits and the desired properties untouched |
| Scenarios.PropertyCount | pkg/twin/feature_test.go:49-64 | on a new feature, after any series of edits, GetAllProperties holds exactly the keys set and not removed since, and as many entries |
| Scenarios.ThreeProperties | pkg/twin/feature_test.go:28-65 | three sets give three properties; removing one makes it absent and leaves the other two |
| Scenarios.Lifecycle | pkg/registry/registry_test.go:22-86 | create, get, update, get, delete: the twin is found with its attributes, then it is TwinNotFound and List is empty |
| Scenarios.LocatedTwin | pkg/registry/registry_test.go:128-150 | a new twin with one location attribute and at most one feature holds exactly those |
| Scenarios.TemperatureFeature | pkg/registry/registry_test.go:132-133 | a new feature with one temperature property holds exactly that property |
| Scenarios.RegistryOf | pkg/registry/registry_test.go:153-155 | creating three twins with distinct ids stores each under its id |
| Scenarios.FindTestRegistry | pkg/registry/registry_test.go:124-155 | the registry of the find test holds the three twins with their attributes and features |
| Scenarios.FindInKitchen | pkg/registry/registry_test.go:163-166 | looking up location "kitchen" finds exactly one twin, the third |
| Scenarios.FindTemperature | pkg/registry/registry_test.go:174-177 | looking up the temperature feature finds exactly two twins, the first and the second |
| BusScenarios.PublishDelivers | pkg/messaging_sim/pubsub_test.go:38-66 | a subscriber's buffer holds exactly the one message published to its topic; publishing to a topic without subscribers adds nothing |
| BusScenarios.PublishAll | pkg/messaging_sim/pubsub.go:63-88 | a series of Publish calls on a topic leaves the topic map as it was and turns a subscribed channel's buffer into the series of non-blocking sends of those messages |
| BusScenarios.Overflow | pkg/messaging_sim/pubsub.go:31-32 | eleven publishes to a fresh, undrained subscription buffer exactly the first ten messages in order and drop the eleventh |
| BusScenarios.UnsubscribeOnly | pkg/messaging_sim/pubsub_test.go:68-83 | unsubscribing the only subscriber drops the topic; unsubscribing from an unknown topic changes nothing |
| BusScenarios.TwoSubscribers | pkg/messaging_sim/pubsub_test.go:85-108 | two subscribers are listed; removing the first leaves one; removing the last drops the topic |
| BusScenarios.CloseAll | pkg/messaging_sim/pubsub_test.go:111-144 | after Close the channels of both topics are closed and no topic is left |

## Left out

- Locking (`sync.RWMutex` in every struct) and the concurrency tests are not modelled. Each method is one atomic step.
- `time.Now()` is not modelled. Each mutator takes the current time as a `now` parameter, and no ordering between times is assumed.
- The dynamic typing of `interface{}` values is not modelled, including the panic when Go compares two values of an uncomparable dynamic type in `FindByAttribute`. Values are an abstract type with equality.
- Aliasing is not modelled. Go copies a `FeatureState` struct by value, but the copy shares its property maps and definition slice with the original. The registry stores twin pointers, so a change made through a pointer after `Create` is visible at once. Here features and twins are stored as values (`Feature`, `Twin`). A registry entry therefore changes only through `Create`, `Update` or `Delete`, and a twin sees a feature only in the state it had when added.
- DigitalTwins.DigitalTwin: `ID` and `CreatedAt` are constants, set once by the constructor. The Go fields are exported and could be overwritten, but no core method writes them.
- MessagingSim.PubSub.Valid: a subscriber closing its own channel while it is still subscribed is excluded. Go hands out a bidirectional channel, so it could close it; a later `Publish` would then panic on the send, and `Close` would panic on closing it a second time. `Valid()` demands that every subscribed channel is open, so these panics are not modelled.
- Receiving from a channel is not modelled: it happens outside the bus. Sending on a channel after `Close` is also left out.
- `Close` closes only the channels still subscribed, as the code does. A channel already unsubscribed is not closed and stays open.
- The ordering of `List`, `FindByAttribute` and `FindByFeature` results is left unspecified, matching Go's randomised map iteration. The contracts state membership and uniqueness only.
- `ErrPropertyNotFound` and `ErrInvalidValue` are declared in `pkg/twin/twin.go` but never returned by any core method. They appear only as constructors of `TwinError`.
- The HTTP API (`pkg/api/handlers.go`, `pkg/api/server.go`) and the server entry point (`cmd/dt_server/main.go`) are not part of this model.
- Scenarios.FindTestRegistry: builds a reduced form of the find test. It uses one attribute per twin and no "switch" feature on the third twin, so the "manufacturer" and "switch" lookups of that test are not replayed.
