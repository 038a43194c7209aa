# Docket: springdox's fluent documentation configuration

This project is a Dafny model of `Docket`. In springdox, a Spring application uses
this builder to say what its generated Swagger documentation contains. A `Docket` is
created for one documentation type, which never changes. Chained setters then set
the group name, api info, path provider, authorization settings, orderings, include
patterns, excluded annotations, ignored parameter types, media types, protocols,
global response messages and model substitution rules. Each setter returns the same
`Docket`. `configure` fills two defaults on its first call only. A group name with no
text becomes `"default"`, and a null `ApiInfo` becomes `ApiInfo.DEFAULT`. Every call
to `configure` then hands all fields to the documentation context.

The model has four modules:

- `Types` (`types.dfy`): the foreign values the Docket stores. These are Spring,
  Guava, classmate and springdox classes, modelled as opaque values with an
  identifier. Java `null` is `Option.None`. The classmate `TypeResolver` is a record
  of the two resolve calls the rule factories make.
- `StringUtils` (`string_utils.dfy`): Spring's `StringUtils.hasText` and
  `Character.isWhitespace`, which the default-filling uses.
- `DocketSpec` (`docket_spec.dfy`): the Docket's fields as one value (`DocketState`).
  It also holds:
  - the effect of every public call (`Step`) and of a sequence of calls (`Run`);
  - the one-shot default-filling (`FillDefaults`, `Configure`);
  - the deferred rule factories as a tagged datatype (`Identity`, `Direct`,
    `Generic`);
  - the lemmas about sequences of calls.
- `Plugins` (`docket.dfy`): the class `Docket`, with the Java fields as mutable
  fields. Every method changes only the fields its `modifies` clause names. Every
  setter returns `this` and ensures `State() == Step(old(State()), call)`. `Configure`
  ensures that the new fields and the returned context are those of
  `DocketSpec.Configure`, and `ConfigureDefaults` ensures the new fields are
  `DocketSpec.FillDefaults` of the old ones. The lemmas of `DocketSpec` therefore
  hold of the class.

Java's `hasText` scans UTF-16 code units and Dafny strings hold Unicode scalar
values. The two give the same answer because no surrogate code unit and no
supplementary character is whitespace.

## Model

| member | source | states |
|---|---|---|
| `StringUtils.HasText` | springdox-spring-web/src/main/java/springdox/documentation/spring/web/plugins/Docket.java:421 | true exactly when the group name is non-null and contains a character that is not whitespace |
| `StringUtils.ContainsText` | springdox-spring-web/src/main/java/springdox/documentation/spring/web/plugins/Docket.java:421 | the scan for a non-whitespace character finds one exactly when one exists |
| `StringUtils.NoTextCases` | springdox-spring-web/src/main/java/springdox/documentation/spring/web/plugins/Docket.java:421 | null, the empty string and all-whitespace strings have no text |
| `DocketSpec.Build` | springdox-spring-web/src/main/java/springdox/documentation/spring/web/plugins/Docket.java:401-418 | an identity factory yields its rule; a direct factory yields the rule replacing the resolved class by the resolved substitute; a generic factory yields the rule replacing the class parameterized by WildcardType by WildcardType |
| `DocketSpec.IdentityBuilders` | springdox-spring-web/src/main/java/springdox/documentation/spring/web/plugins/Docket.java:225-242 | alternateTypeRules makes exactly one identity factory per rule, in argument order |
| `DocketSpec.GenericBuilders` | springdox-spring-web/src/main/java/springdox/documentation/spring/web/plugins/Docket.java:277-282 | genericModelSubstitutes makes exactly one generic factory per class, in argument order |
| `DocketSpec.IdentityBuildersRoundTrip` | springdox-spring-web/src/main/java/springdox/documentation/spring/web/plugins/Docket.java:225-251 | applying the identity factories to any resolver gives back exactly the registered rules, in order |
| `DocketSpec.IdentityIgnoresResolver` | springdox-spring-web/src/main/java/springdox/documentation/spring/web/plugins/Docket.java:244-251 | an identity factory yields its rule unchanged, whatever the resolver |
| `DocketSpec.DirectModelSubstituteResolves` | springdox-spring-web/src/main/java/springdox/documentation/spring/web/plugins/Docket.java:263-266 | after directModelSubstitute the resolved rules are the earlier ones followed by exactly the rule replacing the resolved class by the resolved substitute |
| `DocketSpec.GenericModelSubstitutesResolves` | springdox-spring-web/src/main/java/springdox/documentation/spring/web/plugins/Docket.java:277-282 | after genericModelSubstitutes the resolved rules keep the earlier ones as a prefix, followed by one WildcardType-collapsing rule per class, in argument order |
| `DocketSpec.FillDefaults` | springdox-spring-web/src/main/java/springdox/documentation/spring/web/plugins/Docket.java:420-428 | afterwards the group name has text and the ApiInfo is non-null; a group name with text and a non-null ApiInfo are kept; otherwise they become "default" and ApiInfo.DEFAULT; no other field changes |
| `DocketSpec.Configure` | springdox-spring-web/src/main/java/springdox/documentation/spring/web/plugins/Docket.java:361-385 | afterwards the Docket is initialized; the context carries the Docket's current fields; an initialized Docket is left unchanged; on the first call the defaults are filled |
| `DocketSpec.Step` | springdox-spring-web/src/main/java/springdox/documentation/spring/web/plugins/Docket.java:79-352 | no call changes the documentation type or clears `initialized`; only configure sets it; the append-style fields keep their old content as a prefix or subset; only groupName and configure change the group name; only apiInfo and configure change the ApiInfo |
| `DocketSpec.RunKeepsHistory` | springdox-spring-web/src/main/java/springdox/documentation/spring/web/plugins/Docket.java:141-282 | over any sequence of calls, the documentation type stays and `initialized` stays true once set; excluded annotations and rule factories keep their old content as a prefix; the ignored types, media-type and protocol sets and the response-message keys only grow |
| `DocketSpec.ConfigureInRunInitializes` | springdox-spring-web/src/main/java/springdox/documentation/spring/web/plugins/Docket.java:361-364 | a sequence of calls that contains a configure call leaves the Docket initialized |
| `DocketSpec.GroupNameStable` | springdox-spring-web/src/main/java/springdox/documentation/spring/web/plugins/Docket.java:361-364 | once initialized, or once the group name has text, only the groupName setter changes the group name; configure never fills it again |
| `DocketSpec.ApiInfoStable` | springdox-spring-web/src/main/java/springdox/documentation/spring/web/plugins/Docket.java:425-427 | once initialized, or once the ApiInfo is non-null, only the apiInfo setter changes it |
| `DocketSpec.GroupNameUnsetOrDefaultKept` | springdox-spring-web/src/main/java/springdox/documentation/spring/web/plugins/Docket.java:420-423 | when no call sets the group name, it stays null before initialization and "default" after |
| `DocketSpec.UnsetGroupNameResolvesToDefault` | springdox-spring-web/src/main/java/springdox/documentation/spring/web/plugins/Docket.java:420-423 | for a new Docket whose group name is never set, every configure call, first or later, yields the group name "default" |
| `DocketSpec.ApiInfoUnsetOrDefaultKept` | springdox-spring-web/src/main/java/springdox/documentation/spring/web/plugins/Docket.java:425-427 | when no call sets the ApiInfo, it stays null before initialization and ApiInfo.DEFAULT after |
| `DocketSpec.UnsetApiInfoResolvesToDefault` | springdox-spring-web/src/main/java/springdox/documentation/spring/web/plugins/Docket.java:425-427 | for a new Docket whose ApiInfo is never set, every configure call yields ApiInfo.DEFAULT |
| `DocketSpec.ExplicitGroupNamePreserved` | springdox-spring-web/src/main/java/springdox/documentation/spring/web/plugins/Docket.java:115-118 | a group name with text, set explicitly, is the one every later configure call yields |
| `DocketSpec.ResetGroupNameNotRefilled` | springdox-spring-web/src/main/java/springdox/documentation/spring/web/plugins/Docket.java:361-364 | defaults are filled at most once: a group name reset to null after the first configure call reaches the context as null |
| `DocketSpec.ConfigureIdempotent` | springdox-spring-web/src/main/java/springdox/documentation/spring/web/plugins/Docket.java:354-364 | a second configure call changes nothing and yields the same context |
| `DocketSpec.AppendAccumulatesReplaceKeepsLast` | springdox-spring-web/src/main/java/springdox/documentation/spring/web/plugins/Docket.java:141-165 | two excludeAnnotations calls accumulate both arguments in order; two includePatterns calls keep only the last argument |
| `Plugins.Docket.constructor` | springdox-spring-web/src/main/java/springdox/documentation/spring/web/plugins/Docket.java:56-71 | the given documentation type; include patterns `[".*?"]`; enabled and default response messages on; not initialized; empty lists, sets and map; the regex pattern matcher; null elsewhere |
| `Plugins.Docket.ApiInfo` | springdox-spring-web/src/main/java/springdox/documentation/spring/web/plugins/Docket.java:79-82 | replaces the ApiInfo, changes nothing else, returns this |
| `Plugins.Docket.AuthorizationTypes` | springdox-spring-web/src/main/java/springdox/documentation/spring/web/plugins/Docket.java:92-95 | replaces the authorization types, changes nothing else, returns this |
| `Plugins.Docket.AuthorizationContext` | springdox-spring-web/src/main/java/springdox/documentation/spring/web/plugins/Docket.java:103-106 | replaces the authorization context, changes nothing else, returns this |
| `Plugins.Docket.GroupName` | springdox-spring-web/src/main/java/springdox/documentation/spring/web/plugins/Docket.java:115-118 | replaces the group name, changes nothing else, returns this |
| `Plugins.Docket.PathProvider` | springdox-spring-web/src/main/java/springdox/documentation/spring/web/plugins/Docket.java:130-133 | replaces the path provider, changes nothing else, returns this |
| `Plugins.Docket.ExcludeAnnotations` | springdox-spring-web/src/main/java/springdox/documentation/spring/web/plugins/Docket.java:141-144 | the new list is the old list followed by the arguments in order, duplicates kept |
| `Plugins.Docket.IncludePatterns` | springdox-spring-web/src/main/java/springdox/documentation/spring/web/plugins/Docket.java:162-165 | the include patterns become exactly the arguments |
| `Plugins.Docket.GlobalResponseMessage` | springdox-spring-web/src/main/java/springdox/documentation/spring/web/plugins/Docket.java:181-186 | maps the request method to the messages and leaves every other request method's entry unchanged |
| `Plugins.Docket.IgnoredParameterTypes` | springdox-spring-web/src/main/java/springdox/documentation/spring/web/plugins/Docket.java:197-200 | the new set is the old set united with the argument classes |
| `Plugins.Docket.Produces` | springdox-spring-web/src/main/java/springdox/documentation/spring/web/plugins/Docket.java:202-205 | the new set is the old set united with the argument |
| `Plugins.Docket.Consumes` | springdox-spring-web/src/main/java/springdox/documentation/spring/web/plugins/Docket.java:207-210 | the new set is the old set united with the argument |
| `Plugins.Docket.Protocols` | springdox-spring-web/src/main/java/springdox/documentation/spring/web/plugins/Docket.java:212-215 | the new set is the old set united with the argument |
| `Plugins.Docket.AlternateTypeRules` | springdox-spring-web/src/main/java/springdox/documentation/spring/web/plugins/Docket.java:225-228 | the old factories are kept as a prefix, followed by one identity factory per rule, in argument order |
| `Plugins.Docket.OperationOrdering` | springdox-spring-web/src/main/java/springdox/documentation/spring/web/plugins/Docket.java:230-233 | replaces the operation ordering, changes nothing else, returns this |
| `Plugins.Docket.DirectModelSubstitute` | springdox-spring-web/src/main/java/springdox/documentation/spring/web/plugins/Docket.java:263-266 | appends exactly one direct-substitution factory |
| `Plugins.Docket.GenericModelSubstitutes` | springdox-spring-web/src/main/java/springdox/documentation/spring/web/plugins/Docket.java:277-282 | the old factories are kept as a prefix, followed by one generic factory per class, in argument order |
| `Plugins.Docket.UseDefaultResponseMessages` | springdox-spring-web/src/main/java/springdox/documentation/spring/web/plugins/Docket.java:292-295 | replaces the default-response-messages flag, changes nothing else, returns this |
| `Plugins.Docket.ApiListingReferenceOrdering` | springdox-spring-web/src/main/java/springdox/documentation/spring/web/plugins/Docket.java:305-309 | replaces the listing-reference ordering, changes nothing else, returns this |
| `Plugins.Docket.ApiDescriptionOrdering` | springdox-spring-web/src/main/java/springdox/documentation/spring/web/plugins/Docket.java:319-322 | replaces the api-description ordering, changes nothing else, returns this |
| `Plugins.Docket.RequestMappingPatternMatcher` | springdox-spring-web/src/main/java/springdox/documentation/spring/web/plugins/Docket.java:336-340 | replaces the pattern matcher, changes nothing else, returns this |
| `Plugins.Docket.Enable` | springdox-spring-web/src/main/java/springdox/documentation/spring/web/plugins/Docket.java:349-352 | replaces the enabled flag, changes nothing else, returns this |
| `Plugins.Docket.Configure` | springdox-spring-web/src/main/java/springdox/documentation/spring/web/plugins/Docket.java:361-385 | afterwards initialized; the context equals the current fields; an initialized Docket is left unchanged; on the first call the group name gets text and the ApiInfo becomes non-null |
| `Plugins.Docket.ConfigureDefaults` | springdox-spring-web/src/main/java/springdox/documentation/spring/web/plugins/Docket.java:420-428 | the fields become exactly the default-filled fields |
| `Plugins.Docket.IsEnabled` | springdox-spring-web/src/main/java/springdox/documentation/spring/web/plugins/Docket.java:387-389 | the enabled flag |
| `Plugins.Docket.GetDocumentationType` | springdox-spring-web/src/main/java/springdox/documentation/spring/web/plugins/Docket.java:391-394 | the documentation type fixed at construction |
| `Plugins.Docket.Supports` | springdox-spring-web/src/main/java/springdox/documentation/spring/web/plugins/Docket.java:396-399 | true exactly when the queried type equals the Docket's documentation type |

## Left out

- `EnableSwagger2` is a marker annotation that only imports a Spring configuration. It has no behaviour.
- The `AtomicBoolean` compare-and-set is modelled as a plain boolean under single-threaded use. Races between concurrent first `configure` calls are not modelled.
- Type resolution inside the direct and generic factories is a call into classmate's `TypeResolver` and `AlternateTypeRules.newRule`, which this model cannot see. The resolver is a parameter of `DocketSpec.Build`. `newRule` is modelled as the pair of the two resolved types.
- `DocumentationContextBuilder` is a foreign collaborator. The builder argument of `configure` is dropped. `configure` returns a record of exactly the values it hands over. The builder's own merging and `build()` are not modelled.
- Aliasing is not modelled. Java hands the Docket's own mutable collections to the builder. `includePatterns` keeps a list view of the caller's array. The model copies values.
- Null arguments of four kinds are not modelled. In Java, `new Docket(null)` makes `getDocumentationType` return null and `supports` throw `NullPointerException`. `supports(null)` returns false. `globalResponseMessage(null, messages)` stores an entry under the null key. `directModelSubstitute` and `genericModelSubstitutes` accept null classes and fail only when the factory is resolved. Here `DocumentationType`, `RequestMethod` and `JavaClass` values are never null.
- A null collection argument is not modelled. This means a null varargs array or a null set, which throw `NullPointerException` in Java. Null elements inside those collections are not modelled either. A null list passed to `globalResponseMessage` is modelled, because `HashMap.put` stores it.
- Regex matching of the include patterns is not done in this class. The patterns are only stored.
- `ParameterMerger` (the merge of named parameters) is not part of this model. None of its code is in the modelled source.
- `ApiInfo`, `PathProvider`, `AuthorizationContext`, `AuthorizationType`, Guava `Ordering`, `ResponseMessage`, `RequestMappingPatternMatcher` and `DocumentationType` are opaque values. Their equality is value equality. `DocumentationType.equals` is assumed to compare name and version. The default matcher is a fresh `RegexRequestMappingPatternMatcher` object in Java and a constant value here.
- `StringUtils.IsWhitespace`: U+180E counts as whitespace only on JDKs whose Unicode tables classify it as a space separator. The model treats it as not whitespace.
