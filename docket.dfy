/**
 * springdox.documentation.spring.web.plugins.Docket: the fluent builder a
 * Spring application configures its api documentation with. Every setter
 * changes its own field only and returns the same Docket; configure fills the
 * defaults on its first call and hands every field to the documentation
 * context. Each method is proved against the matching function of DocketSpec.
 */
module Plugins {
  import opened Types
  import opened StringUtils
  import opened DocketSpec

  // The setters keep the Java names, so ApiInfo, PathProvider, AuthorizationContext
  // and RequestMappingPatternMatcher name methods inside this class; their types
  // are therefore written qualified, as Types.ApiInfo and so on.
  class Docket {
    const documentationType: DocumentationType
    var groupName: Option<string>
    var apiInfo: Option<Types.ApiInfo>
    var pathProvider: Option<Types.PathProvider>
    var authorizationContext: Option<Types.AuthorizationContext>
    var authorizationTypes: Option<seq<AuthorizationType>>
    var apiListingReferenceOrdering: Option<Ordering>
    var apiDescriptionOrdering: Option<Ordering>
    var operationOrdering: Option<Ordering>

    var initialized: bool
    var enabled: bool
    var applyDefaultResponseMessages: bool
    var responseMessages: map<RequestMethod, Option<seq<ResponseMessage>>>
    var requestMappingPatternMatcher: Option<Types.RequestMappingPatternMatcher>
    var ruleBuilders: seq<RuleBuilder>
    var includePatterns: seq<string>
    var excludeAnnotations: seq<JavaClass>
    var ignorableParameterTypes: set<JavaClass>
    var protocols: set<string>
    var produces: set<string>
    var consumes: set<string>

    /** All fields as one value. */
    function State(): DocketState
      reads this
    {
      DocketState(
        documentationType, groupName, apiInfo, pathProvider, authorizationContext,
        authorizationTypes, apiListingReferenceOrdering, apiDescriptionOrdering,
        operationOrdering, initialized, enabled, applyDefaultResponseMessages,
        responseMessages, requestMappingPatternMatcher, ruleBuilders, includePatterns,
        excludeAnnotations, ignorableParameterTypes, protocols, produces, consumes)
    }

    constructor (documentationType: DocumentationType)
      ensures State() == Initial(documentationType)
      ensures this.documentationType == documentationType
      ensures includePatterns == [MatchAllPattern]
      ensures enabled && applyDefaultResponseMessages && !initialized
      ensures excludeAnnotations == [] && ruleBuilders == [] && responseMessages == map[]
      ensures ignorableParameterTypes == {} && protocols == {} && produces == {} && consumes == {}
      ensures requestMappingPatternMatcher == Some(RegexRequestMappingPatternMatcher)
    {
      this.documentationType := documentationType;
      groupName := None;
      apiInfo := None;
      pathProvider := None;
      authorizationContext := None;
      authorizationTypes := None;
      apiListingReferenceOrdering := None;
      apiDescriptionOrdering := None;
      operationOrdering := None;
      initialized := false;
      enabled := true;
      applyDefaultResponseMessages := true;
      responseMessages := map[];
      requestMappingPatternMatcher := Some(RegexRequestMappingPatternMatcher);
      ruleBuilders := [];
      includePatterns := [MatchAllPattern];
      excludeAnnotations := [];
      ignorableParameterTypes := {};
      protocols := {};
      produces := {};
      consumes := {};
    }

    method ApiInfo(apiInfo: Option<Types.ApiInfo>) returns (self: Docket)
      modifies this`apiInfo
      ensures self == this && this.apiInfo == apiInfo
      ensures State() == Step(old(State()), SetApiInfo(apiInfo))
    {
      this.apiInfo := apiInfo;
      self := this;
    }

    method AuthorizationTypes(authorizationTypes: Option<seq<AuthorizationType>>) returns (self: Docket)
      modifies this`authorizationTypes
      ensures self == this && this.authorizationTypes == authorizationTypes
      ensures State() == Step(old(State()), SetAuthorizationTypes(authorizationTypes))
    {
      this.authorizationTypes := authorizationTypes;
      self := this;
    }

    method AuthorizationContext(authorizationContext: Option<Types.AuthorizationContext>) returns (self: Docket)
      modifies this`authorizationContext
      ensures self == this && this.authorizationContext == authorizationContext
      ensures State() == Step(old(State()), SetAuthorizationContext(authorizationContext))
    {
      this.authorizationContext := authorizationContext;
      self := this;
    }

    method GroupName(groupName: Option<string>) returns (self: Docket)
      modifies this`groupName
      ensures self == this && this.groupName == groupName
      ensures State() == Step(old(State()), SetGroupName(groupName))
    {
      this.groupName := groupName;
      self := this;
    }

    method PathProvider(pathProvider: Option<Types.PathProvider>) returns (self: Docket)
      modifies this`pathProvider
      ensures self == this && this.pathProvider == pathProvider
      ensures State() == Step(old(State()), SetPathProvider(pathProvider))
    {
      this.pathProvider := pathProvider;
      self := this;
    }

    /** Appends the annotations in order; earlier ones and duplicates stay. */
    method ExcludeAnnotations(annotations: seq<JavaClass>) returns (self: Docket)
      modifies this`excludeAnnotations
      ensures self == this && excludeAnnotations == old(excludeAnnotations) + annotations
      ensures State() == Step(old(State()), AddExcludeAnnotations(annotations))
    {
      excludeAnnotations := excludeAnnotations + annotations;
      self := this;
    }

    /** Replaces the include patterns by exactly the given ones. */
    method IncludePatterns(patterns: seq<string>) returns (self: Docket)
      modifies this`includePatterns
      ensures self == this && includePatterns == patterns
      ensures State() == Step(old(State()), SetIncludePatterns(patterns))
    {
      includePatterns := patterns;
      self := this;
    }

    /** Puts one entry; the entries of the other request methods are untouched. */
    method GlobalResponseMessage(requestMethod: RequestMethod, messages: Option<seq<ResponseMessage>>)
      returns (self: Docket)
      modifies this`responseMessages
      ensures self == this
      ensures requestMethod in responseMessages && responseMessages[requestMethod] == messages
      ensures responseMessages.Keys == old(responseMessages.Keys) + {requestMethod}
      ensures forall m :: m in old(responseMessages) && m != requestMethod ==>
                responseMessages[m] == old(responseMessages[m])
      ensures State() == Step(old(State()), PutGlobalResponseMessage(requestMethod, messages))
    {
      responseMessages := responseMessages[requestMethod := messages];
      self := this;
    }

    method IgnoredParameterTypes(classes: seq<JavaClass>) returns (self: Docket)
      modifies this`ignorableParameterTypes
      ensures self == this
      ensures forall c :: c in ignorableParameterTypes <==> c in old(ignorableParameterTypes) || c in classes
      ensures State() == Step(old(State()), AddIgnoredParameterTypes(classes))
    {
      ignorableParameterTypes := ignorableParameterTypes + set c | c in classes;
      self := this;
    }

    method Produces(values: set<string>) returns (self: Docket)
      modifies this`produces
      ensures self == this && produces == old(produces) + values
      ensures State() == Step(old(State()), AddProduces(values))
    {
      produces := produces + values;
      self := this;
    }

    method Consumes(values: set<string>) returns (self: Docket)
      modifies this`consumes
      ensures self == this && consumes == old(consumes) + values
      ensures State() == Step(old(State()), AddConsumes(values))
    {
      consumes := consumes + values;
      self := this;
    }

    method Protocols(values: set<string>) returns (self: Docket)
      modifies this`protocols
      ensures self == this && protocols == old(protocols) + values
      ensures State() == Step(old(State()), AddProtocols(values))
    {
      protocols := protocols + values;
      self := this;
    }

    /** Appends one identity factory per rule, in argument order. */
    method AlternateTypeRules(rules: seq<AlternateTypeRule>) returns (self: Docket)
      modifies this`ruleBuilders
      ensures self == this
      ensures |ruleBuilders| == |old(ruleBuilders)| + |rules|
      ensures ruleBuilders[..|old(ruleBuilders)|] == old(ruleBuilders)
      ensures forall i :: 0 <= i < |rules| ==> ruleBuilders[|old(ruleBuilders)| + i] == Identity(rules[i])
      ensures State() == Step(old(State()), AddAlternateTypeRules(rules))
    {
      ruleBuilders := ruleBuilders + IdentityBuilders(rules);
      self := this;
    }

    method OperationOrdering(ordering: Option<Ordering>) returns (self: Docket)
      modifies this`operationOrdering
      ensures self == this && operationOrdering == ordering
      ensures State() == Step(old(State()), SetOperationOrdering(ordering))
    {
      operationOrdering := ordering;
      self := this;
    }

    /** Appends exactly one factory, substituting `clazz` by `substitute`. */
    method DirectModelSubstitute(clazz: JavaClass, substitute: JavaClass) returns (self: Docket)
      modifies this`ruleBuilders
      ensures self == this && ruleBuilders == old(ruleBuilders) + [Direct(clazz, substitute)]
      ensures State() == Step(old(State()), AddDirectModelSubstitute(clazz, substitute))
    {
      ruleBuilders := ruleBuilders + [Direct(clazz, substitute)];
      self := this;
    }

    /** Appends one generic factory per class, in argument order. */
    method GenericModelSubstitutes(genericClasses: seq<JavaClass>) returns (self: Docket)
      modifies this`ruleBuilders
      ensures self == this
      ensures |ruleBuilders| == |old(ruleBuilders)| + |genericClasses|
      ensures ruleBuilders[..|old(ruleBuilders)|] == old(ruleBuilders)
      ensures forall i :: 0 <= i < |genericClasses| ==>
                ruleBuilders[|old(ruleBuilders)| + i] == Generic(genericClasses[i])
      ensures State() == Step(old(State()), AddGenericModelSubstitutes(genericClasses))
    {
      for i := 0 to |genericClasses|
        invariant ruleBuilders == old(ruleBuilders) + GenericBuilders(genericClasses[..i])
      {
        GenericBuildersSnoc(genericClasses, i);
        ruleBuilders := ruleBuilders + [Generic(genericClasses[i])];
      }
      assert genericClasses[..|genericClasses|] == genericClasses;
      GenericBuildersAppended(old(ruleBuilders), genericClasses);
      StepAppendsGenericBuilders(old(State()), genericClasses);
      assert State() == old(State()).(ruleBuilders := ruleBuilders);
      self := this;
    }

    method UseDefaultResponseMessages(apply: bool) returns (self: Docket)
      modifies this`applyDefaultResponseMessages
      ensures self == this && applyDefaultResponseMessages == apply
      ensures State() == Step(old(State()), SetUseDefaultResponseMessages(apply))
    {
      applyDefaultResponseMessages := apply;
      self := this;
    }

    method ApiListingReferenceOrdering(ordering: Option<Ordering>) returns (self: Docket)
      modifies this`apiListingReferenceOrdering
      ensures self == this && apiListingReferenceOrdering == ordering
      ensures State() == Step(old(State()), SetApiListingReferenceOrdering(ordering))
    {
      apiListingReferenceOrdering := ordering;
      self := this;
    }

    method ApiDescriptionOrdering(ordering: Option<Ordering>) returns (self: Docket)
      modifies this`apiDescriptionOrdering
      ensures self == this && apiDescriptionOrdering == ordering
      ensures State() == Step(old(State()), SetApiDescriptionOrdering(ordering))
    {
      apiDescriptionOrdering := ordering;
      self := this;
    }

    method RequestMappingPatternMatcher(matcher: Option<Types.RequestMappingPatternMatcher>)
      returns (self: Docket)
      modifies this`requestMappingPatternMatcher
      ensures self == this && requestMappingPatternMatcher == matcher
      ensures State() == Step(old(State()), SetRequestMappingPatternMatcher(matcher))
    {
      requestMappingPatternMatcher := matcher;
      self := this;
    }

    method Enable(externallyConfiguredFlag: bool) returns (self: Docket)
      modifies this`enabled
      ensures self == this && enabled == externallyConfiguredFlag
      ensures State() == Step(old(State()), SetEnable(externallyConfiguredFlag))
    {
      enabled := externallyConfiguredFlag;
      self := this;
    }

    /**
     * Fills the defaults on the first call only, then hands every field, as
     * it now stands, to the documentation context.
     */
    method Configure() returns (context: DocumentationContext)
      modifies this`initialized, this`groupName, this`apiInfo
      ensures initialized
      ensures context == ContextOf(State())
      ensures old(initialized) ==> State() == old(State())
      ensures !old(initialized) ==> HasText(groupName) && apiInfo.Some?
      ensures (State(), context) == DocketSpec.Configure(old(State()))
    {
      if !initialized {
        initialized := true;
        ConfigureDefaults();
      }
      context := DocumentationContext(
        apiInfo := apiInfo,
        applyDefaultResponseMessages := applyDefaultResponseMessages,
        additionalResponseMessages := responseMessages,
        additionalIgnorableTypes := ignorableParameterTypes,
        additionalExcludedAnnotations := excludeAnnotations,
        includePatterns := includePatterns,
        ruleBuilders := ruleBuilders,
        requestMappingPatternMatcher := requestMappingPatternMatcher,
        groupName := groupName,
        pathProvider := pathProvider,
        authorizationContext := authorizationContext,
        authorizationTypes := authorizationTypes,
        apiListingReferenceOrdering := apiListingReferenceOrdering,
        apiDescriptionOrdering := apiDescriptionOrdering,
        operationOrdering := operationOrdering,
        produces := produces,
        consumes := consumes,
        protocols := protocols);
    }

    /** A group name without text becomes "default"; a null ApiInfo becomes ApiInfo.DEFAULT. */
    method ConfigureDefaults()
      modifies this`groupName, this`apiInfo
      ensures State() == FillDefaults(old(State()))
    {
      if !HasText(groupName) {
        groupName := Some(DefaultGroupName);
      }
      if apiInfo == None {
        apiInfo := Some(DefaultApiInfo);
      }
    }

    function IsEnabled(): (r: bool)
      reads this
      ensures r == State().enabled
    {
      enabled
    }

    function GetDocumentationType(): (r: DocumentationType)
      reads this
      ensures r == State().documentationType
    {
      documentationType
    }

    /** The plugin registry picks this Docket exactly for its own documentation type. */
    function Supports(delimiter: DocumentationType): (r: bool)
      ensures r <==> delimiter == documentationType
    {
      documentationType == delimiter
    }
  }
}
